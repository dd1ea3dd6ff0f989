/** Building the cursors in reachable states: what is found, what is pruned, and what that costs. */
module BatchCursors {
  import opened Prelude
  import opened Sums
  import opened VaultTypes
  import opened Ledger
  import opened CreditIndex
  import opened Invariant
  import opened BatchSelect
  import opened CursorPass
  import BatchLemmas
  import R = Replay

  // ---- In reachable states ----

  function CandidateOf(sid: Id, record: Settlement): Candidate { Candidate(sid, record.timestamp, record.amount) }

  /** The recorded ids of a list, with what their records say. */
  function Candidates(ids: seq<Id>, h: map<Id, Settlement>): seq<Candidate>
  {
    if ids == [] then [] else
      var sid := ids[|ids| - 1];
      Candidates(ids[..|ids| - 1], h) + if sid in h then [CandidateOf(sid, h[sid])] else []
  }

  function Unrecorded(ids: seq<Id>, h: map<Id, Settlement>): seq<Id>
  {
    if ids == [] then [] else
      var sid := ids[|ids| - 1];
      Unrecorded(ids[..|ids| - 1], h) + if sid in h then [] else [sid]
  }

  /** A listed id is recorded or has no reservation, so nothing is ever reconstructed. */
  ghost predicate NothingToRebuild(v: Vault, ids: seq<Id>)
  {
    forall id :: id in ids && id !in v.history ==> Owner(v.reservations, id).None?
  }

  /** Nothing is recorded twice over, a credit is at least its recorded sum, and exactly that when all of it is recorded. */
  ghost predicate CreditPlannable(v: Vault, credit: Credit)
  {
    && Distinct(credit.ids) && NothingToRebuild(v, credit.ids)
    && HistSum(credit.ids, v.history) <= credit.amount
    && (AllRecorded(credit.ids, v.history) ==> credit.amount == HistSum(credit.ids, v.history))
  }

  ghost predicate OneLister(credits: map<Id, Credit>, h: map<Id, Settlement>)
  {
    forall p, q, id :: p in credits && q in credits && id in credits[p].ids && id in credits[q].ids && id in h ==> p == q
  }

  /**
   * What planning relies on. Planning takes no lock: besides the states between steps this covers those inside a
   * settlement or a closing, where a credit lists an id that is not recorded or not yet logged.
   */
  ghost predicate Plannable(v: Vault)
  {
    (forall p :: p in v.credits ==> CreditPlannable(v, v.credits[p])) && OneLister(v.credits, v.history)
  }

  lemma PlannableNow(k: Crypto, v: Vault)
    requires Inv(k, v)
    ensures Plannable(v)
  {
    hide MoneyOk, IndexOk, HistoryOk, ListedOk, NoneSpent, ChannelsOk, HistSum, Owner;
    forall p | p in v.credits ensures CreditPlannable(v, v.credits[p]) {
      assert CreditOk(p, v.credits[p], v.reservations, v.history, v.providers);
    }
    forall p, q, id | p in v.credits && q in v.credits && id in v.credits[p].ids && id in v.credits[q].ids && id in v.history
      ensures p == q
    {
      assert CreditOk(p, v.credits[p], v.reservations, v.history, v.providers);
      assert CreditOk(q, v.credits[q], v.reservations, v.history, v.providers);
    }
  }

  lemma {:induction false} ScanLeaves(v: Vault, p: Id, ids: seq<Id>)
    requires NothingToRebuild(v, ids)
    ensures Scanned(v, p, ids) == Scan(v, Candidates(ids, v.history), Unrecorded(ids, v.history))
  {
    hide Owner;
    if ids != [] {
      var n := |ids| - 1;
      assert ids[..n] <= ids && ids[n] in ids;
      ScanLeaves(v, p, ids[..n]);
    }
  }

  /** The cursor is what its provider's recorded settlements allow. */
  ghost predicate FromCredit(v: Vault, order: seq<Id>, c: Cursor, now: Time, mode: Mode, config: Config)
  {
    && c.provider in order && c.provider in v.credits
    && Chosen(Candidates(v.credits[c.provider].ids, v.history), now, mode, config) == Some(Selection(c.ids, c.oldest))
  }

  /** A credit lists the id, but the history does not have it. */
  ghost predicate Dangling(v: Vault, order: seq<Id>, ref: Reference)
  {
    ref.provider in order && ref.provider in v.credits && ref.id in Unrecorded(v.credits[ref.provider].ids, v.history)
  }

  lemma TaggedAre(p: Id, ids: seq<Id>, ref: Reference)
    ensures ref in Tagged(p, ids) <==> ref.provider == p && ref.id in ids
  {
    if ref.provider == p && ref.id in ids {
      var i :| 0 <= i < |ids| && ids[i] == ref.id;
      assert Tagged(p, ids)[i] == ref;
    }
  }

  /**
   * Wherever planning is covered the reconstruct branch is dead: the pass changes nothing, each provider is judged by
   * its recorded settlements, and what is left over are the ids without a record.
   */
  lemma {:induction false} PassLeaves(v: Vault, order: seq<Id>, now: Time, mode: Mode, config: Config)
    requires Plannable(v) && forall p :: p in order ==> p in v.credits
    ensures var pass := PassOver(v, order, now, mode, config);
      && pass.v == v
      && (forall c :: c in pass.cursors ==> FromCredit(v, order, c, now, mode, config))
      && (forall ref :: ref in pass.missing <==> Dangling(v, order, ref))
    decreases |order|
  {
    hide OneLister, HistSum, Owner, Chosen, Candidates, Unrecorded, Scanned, Tagged;
    if order != [] {
      var n := |order| - 1;
      var p := order[n];
      assert order == order[..n] + [p];
      PassLeaves(v, order[..n], now, mode, config);
      assert CreditPlannable(v, v.credits[p]);
      ScanLeaves(v, p, v.credits[p].ids);
      forall ref ensures ref in Tagged(p, Unrecorded(v.credits[p].ids, v.history)) <==>
        ref.provider == p && ref.id in Unrecorded(v.credits[p].ids, v.history)
      {
        TaggedAre(p, Unrecorded(v.credits[p].ids, v.history), ref);
      }
    }
  }

  lemma {:induction false} UnrecordedAre(ids: seq<Id>, h: map<Id, Settlement>, id: Id)
    ensures id in Unrecorded(ids, h) <==> id in ids && id !in h
  {
    if ids != [] {
      assert ids == ids[..|ids| - 1] + [ids[|ids| - 1]];
      UnrecordedAre(ids[..|ids| - 1], h, id);
    }
  }

  // ---- The whole clean-up ----

  /** The recorded ids of a list, in order. */
  function Backed(ids: seq<Id>, h: map<Id, Settlement>): seq<Id>
  {
    if ids == [] then [] else (if ids[0] in h then [ids[0]] else []) + Backed(ids[1..], h)
  }

  /** What is left of a credit when only its recorded settlements count; nothing if they add up to nothing. */
  function Cleaned(credit: Credit, h: map<Id, Settlement>): Option<Credit>
  {
    if AllRecorded(credit.ids, h) then Some(credit)
    else if HistSum(credit.ids, h) == 0 then None
    else Some(Restamped(credit.(ids := Backed(credit.ids, h), amount := HistSum(credit.ids, h)), h))
  }

  function Find(credits: map<Id, Credit>, p: Id): Option<Credit> { if p in credits then Some(credits[p]) else None }

  lemma {:induction false} WithoutUnrecorded(ids: seq<Id>, h: map<Id, Settlement>, sid: Id)
    requires sid !in h
    ensures HistSum(Without(ids, sid), h) == HistSum(ids, h) && Backed(Without(ids, sid), h) == Backed(ids, h)
  {
    if ids != [] {
      WithoutUnrecorded(ids[1..], h, sid);
      if ids[0] != sid {
        assert ([ids[0]] + Without(ids[1..], sid))[1..] == Without(ids[1..], sid);
      } else {
        assert [] + Without(ids[1..], sid) == Without(ids[1..], sid);
      }
    }
  }

  lemma {:induction false} BackedAll(ids: seq<Id>, h: map<Id, Settlement>)
    requires AllRecorded(ids, h)
    ensures Backed(ids, h) == ids
  {
    if ids != [] {
      assert forall id :: id in ids[1..] ==> id in ids;
      BackedAll(ids[1..], h);
    }
  }

  /** Only recorded ids weigh anything. */
  lemma {:induction false} WeighsMeansRecorded(ids: seq<Id>, h: map<Id, Settlement>)
    requires HistSum(ids, h) > 0
    ensures ids != [] && Earliest(ids, h).Some?
  {
    if ids[0] !in h { WeighsMeansRecorded(ids[1..], h); }
  }

  function IdsLeft(ids: seq<Id>, refs: seq<Reference>, p: Id): seq<Id>
  {
    if refs == [] then ids else
      var before := IdsLeft(ids, refs[..|refs| - 1], p);
      if refs[|refs| - 1].provider == p then Without(before, refs[|refs| - 1].id) else before
  }

  lemma {:induction false} LeftAre(ids: seq<Id>, refs: seq<Reference>, p: Id, id: Id)
    ensures id in IdsLeft(ids, refs, p) <==> id in ids && Reference(p, id) !in refs
  {
    if refs != [] {
      var n := |refs| - 1;
      assert refs == refs[..n] + [refs[n]];
      LeftAre(ids, refs[..n], p, id);
      if refs[n].provider == p { WithoutMembers(IdsLeft(ids, refs[..n], p), refs[n].id); }
    }
  }

  ghost predicate Touches(refs: seq<Reference>, p: Id) { exists ref :: ref in refs && ref.provider == p }

  ghost predicate NoneRecorded(refs: seq<Reference>, h: map<Id, Settlement>) { forall ref :: ref in refs ==> ref.id !in h }

  lemma {:induction false} LeftWeighsTheSame(ids: seq<Id>, refs: seq<Reference>, p: Id, h: map<Id, Settlement>)
    requires NoneRecorded(refs, h)
    ensures HistSum(IdsLeft(ids, refs, p), h) == HistSum(ids, h) && Backed(IdsLeft(ids, refs, p), h) == Backed(ids, h)
  {
    hide HistSum, Backed;
    if refs != [] {
      var n := |refs| - 1;
      assert refs[..n] <= refs && refs[n] in refs;
      LeftWeighsTheSame(ids, refs[..n], p, h);
      WithoutUnrecorded(IdsLeft(ids, refs[..n], p), h, refs[n].id);
    }
  }

  /** A provider's credit after some of its unrecorded ids are pruned. */
  ghost function Partly(credit: Credit, refs: seq<Reference>, p: Id, h: map<Id, Settlement>): Option<Credit>
  {
    if !Touches(refs, p) then Some(credit)
    else if HistSum(credit.ids, h) == 0 then None
    else Some(Restamped(credit.(ids := IdsLeft(credit.ids, refs, p), amount := HistSum(credit.ids, h)), h))
  }

  /** One more id. */
  lemma PruneNext(credit: Credit, refs: seq<Reference>, ref: Reference, h: map<Id, Settlement>)
    requires NoneRecorded(refs + [ref], h) && HistSum(credit.ids, h) <= U64_MAX && Partly(credit, refs, ref.provider, h).Some?
    ensures var pruned := Pruned(Partly(credit, refs, ref.provider, h).value, ref.id, h);
      Partly(credit, refs + [ref], ref.provider, h) == if Spent(pruned) then None else Some(pruned)
  {
    hide HistSum, Backed, Earliest, Without;
    var p := ref.provider;
    var all := refs + [ref];
    assert ref in all && all[..|refs|] == refs && all[|refs|] == ref;
    assert forall r :: r in refs ==> r in all;
    if !Touches(refs, p) { UntouchedLeft(credit.ids, refs, p); }
    var before := Partly(credit, refs, p, h).value;
    assert before.ids == IdsLeft(credit.ids, refs, p);
    LeftWeighsTheSame(credit.ids, all, p, h);
    var pruned := Pruned(before, ref.id, h);
    assert pruned.ids == IdsLeft(credit.ids, all, p) && pruned.amount == HistSum(credit.ids, h);
    if HistSum(credit.ids, h) > 0 {
      WeighsMeansRecorded(IdsLeft(credit.ids, all, p), h);
    }
  }

  lemma {:induction false} UntouchedLeft(ids: seq<Id>, refs: seq<Reference>, p: Id)
    requires !Touches(refs, p)
    ensures IdsLeft(ids, refs, p) == ids
  {
    if refs != [] {
      assert refs[|refs| - 1] in refs;
      assert forall r :: r in refs[..|refs| - 1] ==> r in refs;
      UntouchedLeft(ids, refs[..|refs| - 1], p);
    }
  }

  lemma PruneOneAt(credits: map<Id, Credit>, ref: Reference, h: map<Id, Settlement>, p: Id)
    requires ref.provider in credits
    ensures var before := Find(credits, p);
      Find(PrunedFrom(credits, ref, h), p) ==
        if before.None? || ref.provider != p then before
        else if Spent(Pruned(before.value, ref.id, h)) then None else Some(Pruned(before.value, ref.id, h))
  {
    hide Pruned, Spent;
  }

  lemma PruneOneIn(v: Vault, ref: Reference, p: Id)
    ensures PruneOne(v, ref) == v.(credits := PruneOne(v, ref).credits)
    ensures var before := Find(v.credits, p);
      Find(PruneOne(v, ref).credits, p) ==
        if before.None? || ref.provider != p then before
        else if Spent(Pruned(before.value, ref.id, v.history)) then None else Some(Pruned(before.value, ref.id, v.history))
  {
    hide PrunedFrom, Pruned, Spent;
    if ref.provider in v.credits { PruneOneAt(v.credits, ref, v.history, p); }
  }

  lemma {:induction false} PrunedAt(v: Vault, refs: seq<Reference>, p: Id)
    requires NoneRecorded(refs, v.history) && (p in v.credits ==> HistSum(v.credits[p].ids, v.history) <= U64_MAX)
    ensures PruneEach(v, refs) == v.(credits := PruneEach(v, refs).credits)
    ensures Find(PruneEach(v, refs).credits, p) == if p in v.credits then Partly(v.credits[p], refs, p, v.history) else None
    decreases |refs|
  {
    hide HistSum, Pruned, Spent, Restamped, IdsLeft;
    if refs != [] {
      hide Partly, PruneOne;
      var n := |refs| - 1;
      var ref := refs[n];
      assert refs == refs[..n] + [ref];
      assert forall r :: r in refs[..n] ==> r in refs;
      PrunedAt(v, refs[..n], p);
      PruneOneIn(PruneEach(v, refs[..n]), ref, p);
      if p in v.credits { PartlyNext(v.credits[p], refs[..n], ref, p, v.history); }
    }
  }

  /** What one more reference does to one provider. */
  lemma PartlyNext(credit: Credit, refs: seq<Reference>, ref: Reference, p: Id, h: map<Id, Settlement>)
    requires NoneRecorded(refs + [ref], h) && HistSum(credit.ids, h) <= U64_MAX
    ensures var before := Partly(credit, refs, p, h);
      Partly(credit, refs + [ref], p, h) ==
        if before.None? || ref.provider != p then before
        else if Spent(Pruned(before.value, ref.id, h)) then None else Some(Pruned(before.value, ref.id, h))
  {
    hide HistSum, Pruned, Spent, Restamped;
    var all := refs + [ref];
    assert all[..|refs|] == refs && all[|refs|] == ref && ref in all;
    assert forall r :: r in all <==> r in refs || r == ref;
    if ref.provider != p {
      assert Touches(all, p) <==> Touches(refs, p);
    } else if Partly(credit, refs, p, h).Some? {
      PruneNext(credit, refs, ref, h);
    } else {
      assert Touches(all, p);
    }
  }

  /** Each provider is left what its recorded settlements account for, and no one else anything. */
  ghost predicate CleanedTo(credits: map<Id, Credit>, credits': map<Id, Credit>, h: map<Id, Settlement>)
  {
    forall p :: Find(credits', p) == if p in credits then Cleaned(credits[p], h) else None
  }

  /** Building the cursors cleans the credits and changes nothing else. */
  lemma PassCleans(v: Vault, order: seq<Id>, now: Time, mode: Mode, config: Config)
    requires Plannable(v) && Listing(v, order)
    ensures var v' := Planned(v, order, now, mode, config);
      v' == v.(credits := v'.credits) && CleanedTo(v.credits, v'.credits, v.history)
  {
    hide Plannable, Listing, Planned, Cleaned;
    PassCleansAt(v, order, now, mode, config, Id(""));
    forall p ensures var v' := Planned(v, order, now, mode, config);
      Find(v'.credits, p) == if p in v.credits then Cleaned(v.credits[p], v.history) else None
    {
      PassCleansAt(v, order, now, mode, config, p);
    }
  }

  lemma PassCleansAt(v: Vault, order: seq<Id>, now: Time, mode: Mode, config: Config, p: Id)
    requires Plannable(v) && Listing(v, order)
    ensures var v' := Planned(v, order, now, mode, config);
      && v' == v.(credits := v'.credits)
      && Find(v'.credits, p) == if p in v.credits then Cleaned(v.credits[p], v.history) else None
  {
    hide OneLister, NothingToRebuild, PassOver, Chosen, Candidates, Unrecorded, PruneOne, PruneEach, FromCredit, HistSum, Backed, IdsLeft, Restamped;
    PassLeaves(v, order, now, mode, config);
    var missing := PassOver(v, order, now, mode, config).missing;
    forall ref | ref in missing ensures ref.id !in v.history {
      assert Dangling(v, order, ref);
      UnrecordedAre(v.credits[ref.provider].ids, v.history, ref.id);
    }
    if p in v.credits {
      assert CreditPlannable(v, v.credits[p]);
      PrunedAt(v, missing, p);
      MissingAre(v, order, missing, p);
      if !AllRecorded(v.credits[p].ids, v.history) {
        LeftIsBacked(v.credits[p].ids, missing, p, v.history);
      }
    } else {
      PrunedAt(v, missing, p);
    }
  }

  /** A provider is touched exactly when its credit lists the id of a closed channel. */
  lemma MissingAre(v: Vault, order: seq<Id>, missing: seq<Reference>, p: Id)
    requires p in v.credits && p in order && forall ref :: ref in missing <==> Dangling(v, order, ref)
    ensures Touches(missing, p) <==> !AllRecorded(v.credits[p].ids, v.history)
    ensures forall id :: id in v.credits[p].ids && id !in v.history ==> Reference(p, id) in missing
  {
    hide Unrecorded;
    var ids := v.credits[p].ids;
    forall id ensures id in Unrecorded(ids, v.history) <==> id in ids && id !in v.history { UnrecordedAre(ids, v.history, id); }
    forall id | id in ids && id !in v.history ensures Reference(p, id) in missing {
      assert Dangling(v, order, Reference(p, id));
    }
    if Touches(missing, p) {
      var ref :| ref in missing && ref.provider == p;
      assert Dangling(v, order, ref);
    }
  }

  lemma LeftIsBacked(ids: seq<Id>, refs: seq<Reference>, p: Id, h: map<Id, Settlement>)
    requires NoneRecorded(refs, h) && forall id :: id in ids && id !in h ==> Reference(p, id) in refs
    ensures IdsLeft(ids, refs, p) == Backed(ids, h)
  {
    hide IdsLeft, Backed, HistSum;
    forall id | id in IdsLeft(ids, refs, p) ensures id in h { LeftAre(ids, refs, p, id); }
    BackedAll(IdsLeft(ids, refs, p), h);
    LeftWeighsTheSame(ids, refs, p, h);
  }

  lemma CoveredNow(k: Crypto, v: Vault, p: Id)
    requires Inv(k, v) && p in v.credits
    ensures HistSum(v.credits[p].ids, v.history) <= v.credits[p].amount
    ensures v.credits[p].amount == HistSum(v.credits[p].ids, v.history) <==> AllRecorded(v.credits[p].ids, v.history)
  {
    hide MoneyOk, IndexOk, HistoryOk, ListedOk, NoneSpent, ChannelsOk, HistSum, Owner;
    assert CreditOk(p, v.credits[p], v.reservations, v.history, v.providers);
  }

  /** Two ways of weighing, one on each map, that agree key by key. */
  lemma {:induction false} SumMatched(m: map<Id, Credit>, m': map<Id, Credit>, f: Credit -> nat, g: Credit -> nat, lost: Credit -> nat)
    requires m'.Keys <= m.Keys
    requires forall p :: p in m ==> f(m[p]) == g(m[p]) + lost(m[p]) && g(m[p]) == (if p in m' then f(m'[p]) else 0)
    ensures Sum(m, f) == Sum(m', f) + Sum(m, lost)
    decreases |m|
  {
    if m == map[] {
      assert m' == map[];
    } else {
      var p :| p in m;
      assert |m - {p}| < |m| by { assert m.Keys == (m - {p}).Keys + {p}; }
      SumRemove(m, f, p);
      SumRemove(m', f, p);
      SumRemove(m, lost, p);
      SumMatched(m - {p}, m' - {p}, f, g, lost);
    }
  }

  function BackedOf(h: map<Id, Settlement>): Credit -> nat { (credit: Credit) => HistSum(credit.ids, h) }

  /** Cleaning costs exactly the part of the credits that no record accounts for. */
  lemma CleanedLoses(v: Vault, credits': map<Id, Credit>)
    requires Plannable(v) && CleanedTo(v.credits, credits', v.history)
    ensures Sum(v.credits, OwedOf()) == Sum(credits', OwedOf()) + Sum(v.credits, UnbackedOf(v.history))
  {
    hide OneLister, NothingToRebuild, HistSum, Restamped, Backed;
    forall p | p in credits' ensures p in v.credits { assert Find(credits', p).Some?; }
    forall p | p in v.credits
      ensures v.credits[p].amount == HistSum(v.credits[p].ids, v.history) + UnbackedOf(v.history)(v.credits[p])
      ensures HistSum(v.credits[p].ids, v.history) == if p in credits' then credits'[p].amount else 0
    {
      assert CreditPlannable(v, v.credits[p]);
      CleanedAmount(v.credits[p], v.history);
      assert Find(credits', p) == Cleaned(v.credits[p], v.history);
    }
    SumMatched(v.credits, credits', OwedOf(), BackedOf(v.history), UnbackedOf(v.history));
  }

  /**
   * What building the cursors costs: exactly the part of the credits that no record accounts for. Deposits then
   * exceed what is held, owed and paid out by that much more.
   */
  lemma PassLoses(v: Vault, order: seq<Id>, now: Time, mode: Mode, config: Config)
    requires Plannable(v) && Listing(v, order)
    ensures var v' := Planned(v, order, now, mode, config);
      && Sum(v.credits, OwedOf()) == Sum(v'.credits, OwedOf()) + Sum(v.credits, UnbackedOf(v.history))
      && Lost(v') == Lost(v) + Sum(v.credits, UnbackedOf(v.history))
  {
    hide Plannable, Listing, Planned, CleanedTo;
    PassCleans(v, order, now, mode, config);
    CleanedLoses(v, Planned(v, order, now, mode, config).credits);
  }

  lemma CleanedAmount(credit: Credit, h: map<Id, Settlement>)
    requires AllRecorded(credit.ids, h) ==> credit.amount == HistSum(credit.ids, h)
    ensures HistSum(credit.ids, h) == if Cleaned(credit, h).Some? then Cleaned(credit, h).value.amount else 0
  {
  }

  lemma {:induction false} BackedWeighs(ids: seq<Id>, h: map<Id, Settlement>)
    ensures HistSum(Backed(ids, h), h) == HistSum(ids, h)
  {
    if ids != [] {
      var rest := Backed(ids[1..], h);
      BackedWeighs(ids[1..], h);
      if ids[0] in h { assert ([ids[0]] + rest)[1..] == rest; } else { assert [] + rest == rest; }
    }
  }

  lemma {:induction false} BackedAre(ids: seq<Id>, h: map<Id, Settlement>, id: Id)
    ensures id in Backed(ids, h) <==> id in ids && id in h
  {
    if ids != [] {
      assert ids == [ids[0]] + ids[1..];
      BackedAre(ids[1..], h, id);
    }
  }

  lemma {:induction false} BackedDistinct(ids: seq<Id>, h: map<Id, Settlement>)
    requires Distinct(ids)
    ensures Distinct(Backed(ids, h))
  {
    if ids != [] {
      BackedDistinct(ids[1..], h);
      BackedAre(ids[1..], h, ids[0]);
    }
  }

  /** What is left of a credit is still a credit. */
  lemma CleanedOk(p: Id, credit: Credit, rs: map<Id, Reservation>, h: map<Id, Settlement>, ps: map<Id, Provider>)
    requires CreditOk(p, credit, rs, h, ps) && credit.ids != [] && Cleaned(credit, h).Some?
    ensures CreditOk(p, Cleaned(credit, h).value, rs, h, ps) && Cleaned(credit, h).value.ids != []
    ensures forall id :: id in credit.ids && id in h ==> id in Cleaned(credit, h).value.ids
  {
    hide Restamped, HistSum, Backed, Owner;
    if !AllRecorded(credit.ids, h) {
      BackedWeighs(credit.ids, h);
      BackedDistinct(credit.ids, h);
      forall id ensures id in Backed(credit.ids, h) <==> id in credit.ids && id in h { BackedAre(credit.ids, h, id); }
      WeighsMeansRecorded(Backed(credit.ids, h), h);
      BatchLemmas.RestampedOnlyTime(credit.(ids := Backed(credit.ids, h), amount := HistSum(credit.ids, h)), h);
    }
  }

  lemma CleanedCredits(k: Crypto, v: Vault, credits': map<Id, Credit>)
    requires Inv(k, v) && CleanedTo(v.credits, credits', v.history)
    ensures CreditsOk(credits', v.reservations, v.history, v.providers) && NoneSpent(credits')
  {
    hide MoneyOk, IndexOk, ChannelsOk, HistoryOk, ListedOk, CreditOk, Cleaned;
    forall p | p in credits' ensures CreditOk(p, credits'[p], v.reservations, v.history, v.providers) && credits'[p].ids != [] {
      assert Find(credits', p) == Some(credits'[p]);
      CleanedOk(p, v.credits[p], v.reservations, v.history, v.providers);
    }
  }

  /** A settlement that is owed keeps its credit above zero, so it stays listed. */
  lemma CleanedListed(k: Crypto, v: Vault, credits': map<Id, Credit>)
    requires Inv(k, v) && CleanedTo(v.credits, credits', v.history)
    ensures ListedOk(credits', v.reservations)
  {
    hide MoneyOk, IndexOk, ChannelsOk, CreditOk, SidsUnique, Owner, HistSum, Restamped, Backed;
    var rs := v.reservations;
    forall vid | vid in rs && rs[vid].status == SettledOffchain && rs[vid].amount > 0 && rs[vid].settlementId.Some?
      ensures rs[vid].provider in credits' && rs[vid].settlementId.value in credits'[rs[vid].provider].ids
    {
      var p, sid := rs[vid].provider, rs[vid].settlementId.value;
      assert v.history[sid] == RecordOf(rs[vid], v.providers);
      HistSumCovers(v.credits[p].ids, v.history, sid);
      assert Find(credits', p) == Cleaned(v.credits[p], v.history);
      CleanedOk(p, v.credits[p], rs, v.history, v.providers);
    }
  }

  /** Cleaning the credits keeps everything else about the vault, and loses exactly what closed channels had credited. */
  lemma CleanedKeeps(k: Crypto, v: Vault, credits': map<Id, Credit>)
    requires Inv(k, v) && CleanedTo(v.credits, credits', v.history)
    ensures var v' := v.(credits := credits');
      Inv(k, v') && Lost(v') == Lost(v) + Sum(v.credits, UnbackedOf(v.history))
  {
    hide LockedOk, CacheOk, OwnersOk, PaymentsOk, NoncesOk, HistoryOk, CreditsOk, ListedOk, NoneSpent, ChannelsOk, Plannable, CleanedTo;
    PlannableNow(k, v);
    CleanedLoses(v, credits');
    CleanedCredits(k, v, credits');
    CleanedListed(k, v, credits');
  }

  lemma PlanKeeps(k: Crypto, v: Vault, order: seq<Id>, now: Time, mode: Mode, config: Config)
    requires Inv(k, v) && Listing(v, order)
    ensures var v' := Planned(v, order, now, mode, config);
      Inv(k, v') && Lost(v') == Lost(v) + Sum(v.credits, UnbackedOf(v.history))
  {
    hide Inv, Lost, Plannable, Planned, CleanedTo, Listing;
    PlannableNow(k, v);
    PassCleans(v, order, now, mode, config);
    CleanedKeeps(k, v, Planned(v, order, now, mode, config).credits);
  }

  /**
   * Building the cursors leaves the vault alone exactly when every listed id is recorded; the id of a closed channel,
   * or of a settlement credited and not yet recorded, makes it prune.
   */
  lemma UntouchedIffBacked(v: Vault, order: seq<Id>, now: Time, mode: Mode, config: Config)
    requires Plannable(v) && Listing(v, order)
    ensures Planned(v, order, now, mode, config) == v <==> AllBacked(v)
  {
    hide OneLister, NothingToRebuild, Planned, HistSum, Restamped, Backed;
    var v' := Planned(v, order, now, mode, config);
    PassCleans(v, order, now, mode, config);
    forall p | p in v.credits && !AllRecorded(v.credits[p].ids, v.history) ensures v'.credits != v.credits {
      CleanedShrinks(v.credits[p], v.history);
      assert Find(v'.credits, p) == Cleaned(v.credits[p], v.history);
      assert Find(v'.credits, p) != Find(v.credits, p);
    }
    if AllBacked(v) {
      forall p ensures Find(v'.credits, p) == Find(v.credits, p) {}
      SameCredits(v'.credits, v.credits);
    }
  }

  lemma CleanedShrinks(credit: Credit, h: map<Id, Settlement>)
    requires !AllRecorded(credit.ids, h)
    ensures Cleaned(credit, h) != Some(credit)
  {
    hide HistSum, Backed;
    var id :| id in credit.ids && id !in h;
    BackedAre(credit.ids, h, id);
    BatchLemmas.RestampedOnlyTime(credit.(ids := Backed(credit.ids, h), amount := HistSum(credit.ids, h)), h);
  }

  lemma SameCredits(a: map<Id, Credit>, b: map<Id, Credit>)
    requires forall p :: Find(a, p) == Find(b, p)
    ensures a == b
  {
    forall p ensures (p in a <==> p in b) && (p in a ==> a[p] == b[p]) { assert Find(a, p) == Find(b, p); }
  }

  /** None of this is logged, so a vault that lost money this way is not the one its log recovers. */
  lemma PruneDiverges(k: Crypto, v: Vault, rec: Vault, order: seq<Id>, now: Time, mode: Mode, config: Config)
    requires Inv(k, v) && Listing(v, order) && R.Related(v, rec) && !AllBacked(v)
    ensures !R.Related(Planned(v, order, now, mode, config), rec)
  {
    hide Inv, Plannable, Planned, HistSum, Restamped, Backed, R.SameMaps, R.HoldersKnown, R.ClientsRel, R.ChannelsRel, R.CountersRel;
    var p :| p in v.credits && !AllRecorded(v.credits[p].ids, v.history);
    PlannableNow(k, v);
    PassCleans(v, order, now, mode, config);
    assert Find(Planned(v, order, now, mode, config).credits, p) == Cleaned(v.credits[p], v.history);
    CoveredNow(k, v, p);
    CleanedAmount(v.credits[p], v.history);
  }
}
