/** Facts about a provider credit's list of settlement ids: sums, earliest times, removal. */
module CreditIndex {
  import opened Prelude
  import opened VaultTypes
  import opened Ledger

  predicate Distinct(ids: seq<Id>) { forall i, j :: 0 <= i < j < |ids| ==> ids[i] != ids[j] }

  predicate AllRecorded(ids: seq<Id>, h: map<Id, Settlement>) { forall id :: id in ids ==> id in h }

  /** What the history says a list of settlements adds up to; unrecorded ids count nothing. */
  function HistSum(ids: seq<Id>, h: map<Id, Settlement>): nat
  {
    if ids == [] then 0 else (if ids[0] in h then h[ids[0]].amount else 0) + HistSum(ids[1..], h)
  }

  lemma {:induction false} WithoutMembers(ids: seq<Id>, sid: Id)
    ensures forall x :: x in Without(ids, sid) <==> x in ids && x != sid
  {
    if ids != [] {
      WithoutMembers(ids[1..], sid);
      assert ids == [ids[0]] + ids[1..];
    }
  }

  lemma {:induction false} WithoutAbsent(ids: seq<Id>, sid: Id)
    requires sid !in ids
    ensures Without(ids, sid) == ids
  {
    if ids != [] {
      assert ids == [ids[0]] + ids[1..];
      WithoutAbsent(ids[1..], sid);
    }
  }

  lemma {:induction false} WithoutDistinct(ids: seq<Id>, sid: Id)
    requires Distinct(ids)
    ensures Distinct(Without(ids, sid))
  {
    if ids != [] {
      var rest := Without(ids[1..], sid);
      WithoutDistinct(ids[1..], sid);
      WithoutMembers(ids[1..], sid);
      assert forall i :: 0 <= i < |rest| ==> rest[i] in rest;
      assert forall x :: x in ids[1..] ==> x != ids[0];
    }
  }

  lemma {:induction false} WithoutAppend(ids: seq<Id>, x: Id, sid: Id)
    ensures Without(ids + [x], sid) == Without(ids, sid) + (if x == sid then [] else [x])
  {
    if ids == [] {
      assert ids + [x] == [x];
      assert Without([x], sid) == (if x == sid then [] else [x]) + Without([], sid);
    } else {
      assert (ids + [x])[1..] == ids[1..] + [x];
      WithoutAppend(ids[1..], x, sid);
    }
  }

  /** Removing one recorded id lowers the sum by exactly its amount. */
  lemma {:induction false} HistSumWithout(ids: seq<Id>, h: map<Id, Settlement>, sid: Id)
    requires Distinct(ids) && sid in ids && sid in h
    ensures HistSum(ids, h) == HistSum(Without(ids, sid), h) + h[sid].amount
  {
    var head, tail := ids[0], ids[1..];
    if head == sid {
      assert sid !in tail;
      WithoutAbsent(tail, sid);
      assert Without(ids, sid) == tail;
    } else {
      assert ids == [head] + tail;
      HistSumWithout(tail, h, sid);
      assert ([head] + Without(tail, sid))[1..] == Without(tail, sid);
    }
  }

  /** Only the records of listed ids matter. */
  lemma {:induction false} HistSumFrame(ids: seq<Id>, h: map<Id, Settlement>, h': map<Id, Settlement>)
    requires forall id :: id in ids ==> (id in h <==> id in h') && (id in h ==> h[id].amount == h'[id].amount)
    ensures HistSum(ids, h) == HistSum(ids, h')
  {
    if ids != [] {
      assert forall id :: id in ids[1..] ==> id in ids;
      HistSumFrame(ids[1..], h, h');
    }
  }

  lemma {:induction false} HistSumAppend(ids: seq<Id>, h: map<Id, Settlement>, x: Id)
    ensures HistSum(ids + [x], h) == HistSum(ids, h) + (if x in h then h[x].amount else 0)
  {
    if ids == [] {
      assert ids + [x] == [x];
    } else {
      assert (ids + [x])[1..] == ids[1..] + [x];
      HistSumAppend(ids[1..], h, x);
    }
  }

  lemma {:induction false} HistSumCovers(ids: seq<Id>, h: map<Id, Settlement>, sid: Id)
    requires sid in ids && sid in h
    ensures h[sid].amount <= HistSum(ids, h)
  {
    if ids[0] != sid { HistSumCovers(ids[1..], h, sid); }
  }

  /** `Earliest` is the minimum of the recorded timestamps, and absent only when nothing is recorded. */
  lemma {:induction false} EarliestIsMin(ids: seq<Id>, h: map<Id, Settlement>)
    ensures Earliest(ids, h).None? <==> forall id :: id in ids ==> id !in h
    ensures Earliest(ids, h).Some? ==>
      && (forall id :: id in ids && id in h ==> Earliest(ids, h).value <= h[id].timestamp)
      && (exists id :: id in ids && id in h && h[id].timestamp == Earliest(ids, h).value)
  {
    if ids != [] {
      var head, tail := ids[0], ids[1..];
      EarliestIsMin(tail, h);
      assert ids == [head] + tail;
      assert forall id :: id in ids <==> id == head || id in tail;
    }
  }

  lemma {:induction false} EarliestFrame(ids: seq<Id>, h: map<Id, Settlement>, h': map<Id, Settlement>)
    requires forall id :: id in ids ==> (id in h <==> id in h') && (id in h ==> h[id] == h'[id])
    ensures Earliest(ids, h) == Earliest(ids, h')
  {
    if ids != [] {
      assert forall id :: id in ids[1..] ==> id in ids;
      EarliestFrame(ids[1..], h, h');
    }
  }
}
