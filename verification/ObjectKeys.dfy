/** Names of stored log records and snapshots: zero-padded sequence numbers (wal.rs, snapshot.rs). */
module ObjectKeys {
  import opened Prelude
  import opened Sorting

  /** The order of Rust strings: the first differing character decides, a prefix comes first. */
  predicate Before(a: string, b: string)
  {
    b != [] && (a == [] || a[0] < b[0] || (a[0] == b[0] && Before(a[1..], b[1..])))
  }

  predicate NotAfter(a: string, b: string) { a == b || Before(a, b) }

  lemma {:induction false} BeforeTotal(a: string, b: string)
    ensures a == b || Before(a, b) || Before(b, a)
    ensures !(Before(a, b) && Before(b, a)) && !Before(a, a)
  {
    if a != [] && b != [] {
      BeforeTotal(a[1..], b[1..]);
      BeforeTotal(a[1..], a[1..]);
      assert a == [a[0]] + a[1..] && b == [b[0]] + b[1..];
    } else if a != [] {
      BeforeTotal(a[1..], a[1..]);
    }
  }

  lemma {:induction false} BeforeTransitive(a: string, b: string, c: string)
    requires Before(a, b) && Before(b, c)
    ensures Before(a, c)
  {
    if a != [] && a[0] == b[0] && b[0] == c[0] { BeforeTransitive(a[1..], b[1..], c[1..]); }
  }

  /** Strings are totally ordered, so `sort` has one possible result. */
  lemma StringOrder()
    ensures Ordering(NotAfter)
    ensures forall s: seq<string> :: Strict(s, NotAfter)
  {
    forall a: string, b: string ensures NotAfter(a, b) || NotAfter(b, a) { BeforeTotal(a, b); }
    forall a, b, c | NotAfter(a, b) && NotAfter(b, c) ensures NotAfter(a, c) {
      if Before(a, b) && Before(b, c) { BeforeTransitive(a, b, c); }
    }
    forall s: seq<string> ensures Strict(s, NotAfter) {
      forall x, y | x in s && y in s && NotAfter(x, y) && NotAfter(y, x) ensures x == y { BeforeTotal(x, y); }
    }
  }

  // ---- Zero-padded numbers ----

  function Pow10(n: nat): nat { if n == 0 then 1 else 10 * Pow10(n - 1) }

  function Digit(d: nat): char
    requires d < 10
  {
    '0' + d as char
  }

  /** The last `width` decimal digits of a number, most significant first. */
  function Padded(n: nat, width: nat): (s: string)
    ensures |s| == width
  {
    if width == 0 then [] else Padded(n / 10, width - 1) + [Digit(n % 10)]
  }

  lemma {:induction false} BeforeAppend(x: string, y: string, c: char, d: char)
    requires |x| == |y|
    ensures Before(x + [c], y + [d]) <==> Before(x, y) || (x == y && c < d)
  {
    if x == [] {
      assert x + [c] == [c] && y + [d] == [d];
      assert [c][1..] == [] && [d][1..] == [];
    } else {
      assert (x + [c])[1..] == x[1..] + [c] && (y + [d])[1..] == y[1..] + [d];
      BeforeAppend(x[1..], y[1..], c, d);
      assert x == [x[0]] + x[1..] && y == [y[0]] + y[1..];
    }
  }

  /** Padded to the same width, numbers and their texts have the same order. */
  lemma {:induction false} PaddedOrder(a: nat, b: nat, width: nat)
    requires a < Pow10(width) && b < Pow10(width)
    ensures Before(Padded(a, width), Padded(b, width)) <==> a < b
    ensures Padded(a, width) == Padded(b, width) <==> a == b
  {
    if width > 0 {
      PaddedOrder(a / 10, b / 10, width - 1);
      var x, y := Padded(a / 10, width - 1), Padded(b / 10, width - 1);
      BeforeAppend(x, y, Digit(a % 10), Digit(b % 10));
      var s, t := x + [Digit(a % 10)], y + [Digit(b % 10)];
      if s == t { assert s[..width - 1] == x && t[..width - 1] == y && s[width - 1] == t[width - 1]; }
    }
  }

  lemma {:induction false} BeforeFramed(prefix: string, x: string, y: string, suffix: string)
    requires |x| == |y|
    ensures Before(prefix + x + suffix, prefix + y + suffix) <==> Before(x, y)
    decreases |prefix| + |x|
  {
    if prefix != [] {
      assert (prefix + x + suffix)[1..] == prefix[1..] + x + suffix && (prefix + y + suffix)[1..] == prefix[1..] + y + suffix;
      BeforeFramed(prefix[1..], x, y, suffix);
    } else if x == [] {
      assert prefix + x + suffix == suffix && prefix + y + suffix == suffix;
      BeforeTotal(suffix, suffix);
    } else {
      assert (prefix + x + suffix)[1..] == [] + x[1..] + suffix && (prefix + y + suffix)[1..] == [] + y[1..] + suffix;
      BeforeFramed([], x[1..], y[1..], suffix);
    }
  }

  // ---- Keys ----

  /** `trim_end_matches('/')` */
  function Trimmed(prefix: string): string
  {
    if prefix != [] && prefix[|prefix| - 1] == '/' then Trimmed(prefix[..|prefix| - 1]) else prefix
  }

  function ObjectKey(prefix: string, kind: string, seqno: nat): string
  {
    Trimmed(prefix) + kind + Padded(seqno, 20) + ".json"
  }

  function SnapshotKey(prefix: string, seqno: nat): string { ObjectKey(prefix, "/snapshot-", seqno) }

  lemma TwentyDigits()
    ensures U64_LIMIT <= Pow10(20)
  {
    assert Pow10(5) == 100_000;
    assert Pow10(10) == 10_000_000_000;
    assert Pow10(15) == 1_000_000_000_000_000;
    assert Pow10(20) == 100_000_000_000_000_000_000;
  }

  /** Keys sort exactly as the numbers in them, for every 64-bit sequence number. */
  lemma KeyOrder(prefix: string, kind: string, a: nat, b: nat)
    requires a < U64_LIMIT && b < U64_LIMIT
    ensures Before(ObjectKey(prefix, kind, a), ObjectKey(prefix, kind, b)) <==> a < b
    ensures ObjectKey(prefix, kind, a) == ObjectKey(prefix, kind, b) <==> a == b
  {
    hide Padded, Pow10, Before, Trimmed;
    TwentyDigits();
    PaddedOrder(a, b, 20);
    PaddedOrder(b, a, 20);
    BeforeFramed(Trimmed(prefix) + kind, Padded(a, 20), Padded(b, 20), ".json");
    BeforeFramed(Trimmed(prefix) + kind, Padded(b, 20), Padded(a, 20), ".json");
    BeforeTotal(ObjectKey(prefix, kind, a), ObjectKey(prefix, kind, b));
  }

  // ---- The newest snapshot ----

  /** `recover_latest`: the last of the sorted names. */
  function NewestKey(keys: seq<string>): string
    requires keys != []
  {
    SortedPermutes(keys, NotAfter);
    SameMembers(keys, Sorted(keys, NotAfter));
    Sorted(keys, NotAfter)[|keys| - 1]
  }

  /** `snapshot_keys_to_prune` */
  function KeysToPrune(keys: seq<string>, retain: nat): seq<string>
  {
    if retain == 0 || |keys| <= retain then [] else keys[..|keys| - retain]
  }

  /** The listed names are those of some set of snapshots, in any order. */
  ghost predicate SnapshotNames(prefix: string, keys: seq<string>, seqnos: seq<nat>)
  {
    |keys| == |seqnos| && forall i :: 0 <= i < |keys| ==> seqnos[i] < U64_LIMIT && keys[i] == SnapshotKey(prefix, seqnos[i])
  }

  /** Recovery picks the snapshot with the largest number. */
  lemma NewestIsLargest(prefix: string, keys: seq<string>, seqnos: seq<nat>, latest: nat)
    requires SnapshotNames(prefix, keys, seqnos) && latest in seqnos && (forall n :: n in seqnos ==> n <= latest)
    ensures NewestKey(keys) == SnapshotKey(prefix, latest)
  {
    hide ObjectKey, Before, Sorted, Ordering, Strict;
    StringOrder();
    SortedPermutes(keys, NotAfter);
    SortedOrdered(keys, NotAfter);
    SameMembers(keys, Sorted(keys, NotAfter));
    var i :| 0 <= i < |seqnos| && seqnos[i] == latest;
    assert keys[i] in keys;
    LastIsMost(Sorted(keys, NotAfter), NotAfter, keys[i]);
    var newest := NewestKey(keys);
    assert newest in Sorted(keys, NotAfter);
    var j :| 0 <= j < |keys| && keys[j] == newest;
    assert seqnos[j] in seqnos;
    KeyOrder(prefix, "/snapshot-", seqnos[j], latest);
    KeyOrder(prefix, "/snapshot-", latest, seqnos[j]);
    BeforeTotal(newest, keys[i]);
  }

  /** Pruning removes only snapshots older than every one it keeps, and keeps as many as asked. */
  lemma PruneKeepsNewest(prefix: string, keys: seq<string>, seqnos: seq<nat>, retain: nat, latest: nat)
    requires SnapshotNames(prefix, keys, seqnos) && (forall i, j :: 0 <= i < j < |seqnos| ==> seqnos[i] != seqnos[j])
    requires latest in seqnos && (forall n :: n in seqnos ==> n <= latest)
    ensures var sorted := Sorted(keys, NotAfter);
      var stale := KeysToPrune(sorted, retain);
      && |sorted| == |keys|
      && SnapshotKey(prefix, latest) !in stale
      && (retain > 0 ==> |sorted| - |stale| == if |keys| < retain then |keys| else retain)
      && (forall a, b :: 0 <= a < |stale| && |stale| <= b < |sorted| ==> Before(stale[a], sorted[b]))
  {
    hide ObjectKey, Before, Sorted;
    var sorted := Sorted(keys, NotAfter);
    var stale := KeysToPrune(sorted, retain);
    NewestIsLargest(prefix, keys, seqnos, latest);
    DistinctNames(prefix, keys, seqnos);
    SortedDistinct(keys);
    var newest := sorted[|sorted| - 1];
    BeforeTotal(newest, newest);
    assert forall a :: 0 <= a < |stale| ==> stale[a] == sorted[a] && Before(sorted[a], newest);
  }

  lemma DistinctNames(prefix: string, keys: seq<string>, seqnos: seq<nat>)
    requires SnapshotNames(prefix, keys, seqnos) && (forall i, j :: 0 <= i < j < |seqnos| ==> seqnos[i] != seqnos[j])
    ensures forall i, j :: 0 <= i < j < |keys| ==> keys[i] != keys[j]
  {
    forall i, j | 0 <= i < j < |keys| ensures keys[i] != keys[j] { KeyOrder(prefix, "/snapshot-", seqnos[i], seqnos[j]); }
  }

  /** Distinct names come out of the sort in strictly increasing order. */
  lemma SortedDistinct(keys: seq<string>)
    requires forall i, j :: 0 <= i < j < |keys| ==> keys[i] != keys[j]
    ensures var sorted := Sorted(keys, NotAfter);
      |sorted| == |keys| && forall a, b :: 0 <= a < b < |sorted| ==> Before(sorted[a], sorted[b])
  {
    StringOrder();
    var sorted := Sorted(keys, NotAfter);
    SortedPermutes(keys, NotAfter);
    SortedOrdered(keys, NotAfter);
    SameMembers(keys, sorted);
    NoRepeats(keys);
    forall a, b | 0 <= a < b < |sorted| ensures Before(sorted[a], sorted[b]) {
      if sorted[a] == sorted[b] { Repeats(sorted, a, b); }
    }
  }

  lemma {:induction false} NoRepeats(keys: seq<string>)
    requires forall i, j :: 0 <= i < j < |keys| ==> keys[i] != keys[j]
    ensures forall k :: k in keys ==> multiset(keys)[k] == 1
  {
    if keys != [] {
      var n := |keys| - 1;
      assert keys == keys[..n] + [keys[n]];
      NoRepeats(keys[..n]);
      assert keys[n] !in keys[..n];
      assert multiset(keys) == multiset(keys[..n]) + multiset{keys[n]};
    }
  }

  lemma Repeats(keys: seq<string>, a: nat, b: nat)
    requires a < b < |keys| && keys[a] == keys[b]
    ensures multiset(keys)[keys[a]] >= 2
  {
    var left, right := keys[..b], keys[b..];
    assert keys == left + right;
    assert multiset(keys) == multiset(left) + multiset(right);
    assert keys[a] == left[a] && keys[b] == right[0];
    assert keys[a] in left && keys[a] in right;
    assert multiset(left)[keys[a]] >= 1 && multiset(right)[keys[a]] >= 1;
  }
}
