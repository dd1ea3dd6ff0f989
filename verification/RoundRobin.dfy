/** Round-robin over the providers' cursors (enclave/src/batch.rs, `select_batch_settlement_ids`). */
module RoundRobin {
  import opened Prelude
  import opened Sorting
  import opened CreditIndex
  import opened BatchSelect

  datatype Pick = Pick(provider: Id, id: Id)

  function NonEmpty(cs: seq<Cursor>): seq<Cursor>
  {
    if cs == [] then [] else NonEmpty(cs[..|cs| - 1]) + if cs[|cs| - 1].ids == [] then [] else [cs[|cs| - 1]]
  }

  /** The cursors in the order they are served. */
  function Served(cs: seq<Cursor>): seq<Cursor> { Sorted(NonEmpty(cs), Earlier) }

  /** What has been picked once `r` rounds are complete and the first `j` cursors of the next round were served. */
  function PickedAt(cs: seq<Cursor>, r: nat, j: nat): seq<Pick>
    requires j <= |cs|
    decreases r, j
  {
    if j > 0 then PickedAt(cs, r, j - 1) + (if r < |cs[j - 1].ids| then [Pick(cs[j - 1].provider, cs[j - 1].ids[r])] else [])
    else if r > 0 then PickedAt(cs, r - 1, |cs|)
    else []
  }

  /** How many of cursor `i`'s ids are taken by then. */
  function Taken(cs: seq<Cursor>, r: nat, j: nat, i: nat): nat
    requires i < |cs|
  {
    var turns := r + if i < j then 1 else 0;
    if turns < |cs[i].ids| then turns else |cs[i].ids|
  }

  function TakenUpto(cs: seq<Cursor>, r: nat, j: nat, n: nat): nat
    requires n <= |cs|
  {
    if n == 0 then 0 else TakenUpto(cs, r, j, n - 1) + Taken(cs, r, j, n - 1)
  }

  function Total(cs: seq<Cursor>): nat { if cs == [] then 0 else Total(cs[..|cs| - 1]) + |cs[|cs| - 1].ids| }

  /** The ids picked from one provider, in order. */
  function From(picks: seq<Pick>, p: Id): seq<Id>
  {
    if picks == [] then [] else
      var last := picks[|picks| - 1];
      From(picks[..|picks| - 1], p) + if last.provider == p then [last.id] else []
  }

  lemma {:induction false} FromAppend(a: seq<Pick>, b: seq<Pick>, p: Id)
    requires |b| <= 1
    ensures From(a + b, p) == From(a, p) + if b != [] && b[0].provider == p then [b[0].id] else []
  {
    if b == [] { assert a + b == a; } else { assert (a + b)[..|a|] == a; }
  }

  ghost predicate OneEach(cs: seq<Cursor>) { forall i, j :: 0 <= i < j < |cs| ==> cs[i].provider != cs[j].provider }

  /** Each provider contributes a prefix of its list, in order. */
  lemma {:induction false} PrefixTaken(cs: seq<Cursor>, r: nat, j: nat, i: nat)
    requires OneEach(cs) && j <= |cs| && i < |cs|
    ensures From(PickedAt(cs, r, j), cs[i].provider) == cs[i].ids[..Taken(cs, r, j, i)]
    decreases r, j
  {
    if j > 0 {
      PrefixTaken(cs, r, j - 1, i);
      var last := if r < |cs[j - 1].ids| then [Pick(cs[j - 1].provider, cs[j - 1].ids[r])] else [];
      FromAppend(PickedAt(cs, r, j - 1), last, cs[i].provider);
    } else if r > 0 {
      PrefixTaken(cs, r - 1, |cs|, i);
    }
  }

  lemma {:induction false} TakenFrame(cs: seq<Cursor>, r: nat, j: nat, r': nat, j': nat, n: nat)
    requires n <= |cs| && forall i :: 0 <= i < n ==> Taken(cs, r, j, i) == Taken(cs, r', j', i)
    ensures TakenUpto(cs, r, j, n) == TakenUpto(cs, r', j', n)
  {
    if n > 0 { TakenFrame(cs, r, j, r', j', n - 1); }
  }

  /** One more turn adds exactly what that cursor still has. */
  lemma {:induction false} TakenTurn(cs: seq<Cursor>, r: nat, j: nat, n: nat)
    requires 0 < j <= |cs| && n <= |cs|
    ensures TakenUpto(cs, r, j, n) == TakenUpto(cs, r, j - 1, n) + if j <= n && r < |cs[j - 1].ids| then 1 else 0
  {
    if n > 0 { TakenTurn(cs, r, j, n - 1); }
  }

  lemma {:induction false} NoneTaken(cs: seq<Cursor>, n: nat)
    requires n <= |cs|
    ensures TakenUpto(cs, 0, 0, n) == 0
  {
    if n > 0 { NoneTaken(cs, n - 1); }
  }

  lemma {:induction false} PickedCount(cs: seq<Cursor>, r: nat, j: nat)
    requires j <= |cs|
    ensures |PickedAt(cs, r, j)| == TakenUpto(cs, r, j, |cs|)
    decreases r, j
  {
    if j > 0 {
      PickedCount(cs, r, j - 1);
      TakenTurn(cs, r, j, |cs|);
    } else if r > 0 {
      PickedCount(cs, r - 1, |cs|);
      TakenFrame(cs, r - 1, |cs|, r, 0, |cs|);
    } else {
      NoneTaken(cs, |cs|);
    }
  }

  /** Never more than there is, and all of it when every cursor is exhausted. */
  lemma {:induction false} TakenBounded(cs: seq<Cursor>, r: nat, j: nat, n: nat)
    requires n <= |cs|
    ensures TakenUpto(cs, r, j, n) <= Total(cs[..n])
    ensures (forall i :: 0 <= i < n ==> Taken(cs, r, j, i) == |cs[i].ids|) ==> TakenUpto(cs, r, j, n) == Total(cs[..n])
  {
    if n > 0 {
      assert cs[..n][..n - 1] == cs[..n - 1];
      TakenBounded(cs, r, j, n - 1);
    }
  }

  /** The picks are those of some point of the round-robin. */
  ghost predicate InTurns(cs: seq<Cursor>, picks: seq<Pick>)
  {
    exists r, j :: 0 <= j <= |cs| && TurnsAt(cs, r, j, picks)
  }

  ghost predicate TurnsAt(cs: seq<Cursor>, r: nat, j: nat, picks: seq<Pick>)
    requires j <= |cs|
  {
    picks == PickedAt(cs, r, j)
  }

  /** `select_batch_settlement_ids`: sort, then take turns until enough is selected or nothing is left. */
  method SelectBatchIds(cursors: seq<Cursor>, max: nat) returns (selected: seq<Pick>)
    ensures InTurns(Served(cursors), selected)
    ensures |selected| == if max < Total(Served(cursors)) then max else Total(Served(cursors))
  {
    var cs := Served(cursors);
    var next := new nat[|cs|](_ => 0);
    selected := [];
    ghost var r: nat := 0;
    while |selected| < max
      invariant selected == PickedAt(cs, r, 0) && |selected| <= max
      invariant forall i :: 0 <= i < |cs| ==> next[i] == Taken(cs, r, 0, i)
      decreases max - |selected|
    {
      var advanced := false;
      var j := 0;
      ghost var start := |selected|;
      while j < |cs| && |selected| < max
        invariant j <= |cs| && selected == PickedAt(cs, r, j) && start <= |selected| <= max
        invariant forall i :: 0 <= i < |cs| ==> next[i] == Taken(cs, r, j, i)
        invariant !advanced ==> |selected| == start && forall i :: 0 <= i < j ==> Taken(cs, r, j, i) == |cs[i].ids|
        invariant advanced ==> |selected| > start
      {
        if next[j] < |cs[j].ids| {
          selected := selected + [Pick(cs[j].provider, cs[j].ids[next[j]])];
          next[j] := next[j] + 1;
          advanced := true;
        }
        j := j + 1;
      }
      Finished(cs, r, j, selected);
      if j < |cs| || !advanced {
        assert TurnsAt(cs, r, j, selected);
        return;
      }
      assert forall i :: 0 <= i < |cs| ==> Taken(cs, r, |cs|, i) == Taken(cs, r + 1, 0, i);
      r := r + 1;
    }
    assert TurnsAt(cs, r, 0, selected);
    Finished(cs, r, 0, selected);
  }

  lemma Finished(cs: seq<Cursor>, r: nat, j: nat, picks: seq<Pick>)
    requires j <= |cs| && picks == PickedAt(cs, r, j)
    ensures |picks| <= Total(cs)
    ensures j == |cs| && (forall i :: 0 <= i < |cs| ==> Taken(cs, r, j, i) == |cs[i].ids|) ==> |picks| == Total(cs)
  {
    PickedCount(cs, r, j);
    TakenBounded(cs, r, j, |cs|);
    assert cs[..|cs|] == cs;
  }

  // ---- What taking turns means ----

  lemma Shares(cs: seq<Cursor>, picks: seq<Pick>, a: nat, b: nat)
    requires OneEach(cs) && InTurns(cs, picks) && a < |cs| && b < |cs|
    ensures var x, y := From(picks, cs[a].provider), From(picks, cs[b].provider);
      && x <= cs[a].ids && y <= cs[b].ids
      && (|x| > |y| && |y| < |cs[b].ids| ==> |x| == |y| + 1 && a < b)
  {
    var r, j :| 0 <= j <= |cs| && TurnsAt(cs, r, j, picks);
    PrefixTaken(cs, r, j, a);
    PrefixTaken(cs, r, j, b);
  }

  lemma {:induction false} NonEmptyAre(cs: seq<Cursor>, c: Cursor)
    ensures c in NonEmpty(cs) <==> c in cs && c.ids != []
  {
    if cs != [] {
      assert cs == cs[..|cs| - 1] + [cs[|cs| - 1]];
      NonEmptyAre(cs[..|cs| - 1], c);
    }
  }

  /** The served cursors are the non-empty ones, older credit first and then the smaller provider id. */
  lemma ServedAre(cursors: seq<Cursor>)
    ensures Ordered(Served(cursors), Earlier)
    ensures forall c :: c in Served(cursors) <==> c in cursors && c.ids != []
  {
    EarlierIsOrdering();
    SortedOrdered(NonEmpty(cursors), Earlier);
    SortedPermutes(NonEmpty(cursors), Earlier);
    SameMembers(NonEmpty(cursors), Served(cursors));
    forall c ensures c in Served(cursors) <==> c in cursors && c.ids != [] { NonEmptyAre(cursors, c); }
  }

  lemma {:induction false} NonEmptyOneEach(cs: seq<Cursor>)
    requires OneEach(cs)
    ensures OneEach(NonEmpty(cs))
  {
    if cs != [] {
      var n := |cs| - 1;
      NonEmptyOneEach(cs[..n]);
      var rest := NonEmpty(cs[..n]);
      forall i | 0 <= i < |rest| ensures rest[i].provider != cs[n].provider {
        NonEmptyAre(cs[..n], rest[i]);
        var k :| 0 <= k < n && cs[..n][k] == rest[i];
      }
    }
  }

  /** One cursor per provider, before and after sorting. */
  lemma ServedOneEach(cursors: seq<Cursor>)
    requires OneEach(cursors)
    ensures OneEach(Served(cursors))
  {
    var cs, sorted := NonEmpty(cursors), Served(cursors);
    NonEmptyOneEach(cursors);
    SortedPermutes(cs, Earlier);
    SameMembers(cs, sorted);
    forall i, j | 0 <= i < j < |sorted| ensures sorted[i].provider != sorted[j].provider {
      assert sorted[i] in cs && sorted[j] in cs;
      var a :| 0 <= a < |cs| && cs[a] == sorted[i];
      var b :| 0 <= b < |cs| && cs[b] == sorted[j];
      OnceOnly(cs, a);
      if sorted[i] == sorted[j] { CountedTwice(sorted, i, j); }
    }
  }

  lemma CountedTwice(cs: seq<Cursor>, i: nat, j: nat)
    requires i < j < |cs| && cs[i] == cs[j]
    ensures multiset(cs)[cs[i]] >= 2
  {
    var left, right := cs[..j], cs[j..];
    assert cs == left + right && left[i] == cs[i] && right[0] == cs[j];
    assert multiset(cs)[cs[i]] == multiset(left)[cs[i]] + multiset(right)[cs[i]];
    assert cs[i] in left && cs[i] in right;
  }

  lemma OnceOnly(cs: seq<Cursor>, a: nat)
    requires OneEach(cs) && a < |cs|
    ensures multiset(cs)[cs[a]] == 1
  {
    var left, right := cs[..a], cs[a + 1..];
    assert cs == left + [cs[a]] + right;
    assert cs[a] !in left && cs[a] !in right;
    assert multiset(cs)[cs[a]] == multiset(left)[cs[a]] + 1 + multiset(right)[cs[a]];
  }

  /**
   * Fair shares, in terms of the cursors handed in: each provider contributes a prefix of its list in order. If one
   * contributed more than another that still had ids left, it was one more, and the tie went to the older credit or,
   * at the same age, to the smaller provider id.
   */
  lemma FairShares(cursors: seq<Cursor>, picks: seq<Pick>, x: Cursor, y: Cursor)
    requires OneEach(cursors) && InTurns(Served(cursors), picks)
    requires x in cursors && y in cursors && x.ids != [] && y.ids != []
    ensures var a, b := From(picks, x.provider), From(picks, y.provider);
      && a <= x.ids && b <= y.ids
      && (|a| > |b| && |b| < |y.ids| ==> |a| == |b| + 1 && Earlier(x, y))
  {
    hide Served, From, InTurns, Earlier;
    var cs := Served(cursors);
    ServedAre(cursors);
    ServedOneEach(cursors);
    var i :| 0 <= i < |cs| && cs[i] == x;
    var j :| 0 <= j < |cs| && cs[j] == y;
    Shares(cs, picks, i, j);
  }

  lemma {:induction false} FromGrows(picks: seq<Pick>, m: nat, n: nat, p: Id)
    requires m <= n <= |picks|
    ensures From(picks[..m], p) <= From(picks[..n], p)
    decreases n
  {
    if m < n {
      assert picks[..n][..n - 1] == picks[..n - 1];
      FromGrows(picks, m, n - 1, p);
    }
  }

  lemma FromAt(picks: seq<Pick>, m: nat)
    requires m < |picks|
    ensures var p := picks[m].provider;
      From(picks[..m + 1], p) == From(picks[..m], p) + [picks[m].id] && From(picks[..m + 1], p) <= From(picks, p)
  {
    assert picks[..m + 1][..m] == picks[..m];
    FromGrows(picks, m + 1, |picks|, picks[m].provider);
    assert picks[..|picks|] == picks;
  }

  /** No settlement is picked twice when no list repeats an id. */
  lemma PicksDistinct(cs: seq<Cursor>, picks: seq<Pick>, m: nat, n: nat)
    requires OneEach(cs) && InTurns(cs, picks) && m < n < |picks| && picks[m].provider == picks[n].provider
    requires exists i :: 0 <= i < |cs| && cs[i].provider == picks[m].provider && Distinct(cs[i].ids)
    ensures picks[m].id != picks[n].id
  {
    var p := picks[m].provider;
    var i :| 0 <= i < |cs| && cs[i].provider == p && Distinct(cs[i].ids);
    Shares(cs, picks, i, i);
    FromAt(picks, m);
    FromAt(picks, n);
    FromGrows(picks, m + 1, n, p);
    var all, a, b := From(picks, p), |From(picks[..m], p)|, |From(picks[..n], p)|;
    assert a < b < |all| && all[a] == picks[m].id && all[b] == picks[n].id;
  }

  /** Every pick names a served cursor and one of its ids. */
  lemma {:induction false} PicksListed(cs: seq<Cursor>, r: nat, j: nat, m: nat)
    requires j <= |cs| && m < |PickedAt(cs, r, j)|
    ensures exists i :: 0 <= i < |cs| && cs[i].provider == PickedAt(cs, r, j)[m].provider && PickedAt(cs, r, j)[m].id in cs[i].ids
    decreases r, j
  {
    if j > 0 {
      if m < |PickedAt(cs, r, j - 1)| { PicksListed(cs, r, j - 1, m); }
    } else if r > 0 {
      PicksListed(cs, r - 1, |cs|, m);
    }
  }
}
