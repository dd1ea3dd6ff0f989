/** The log in the object store (enclave/src/wal.rs): sequence numbers, reading back, and what a restart does to them. */
module WriteAheadLog {
  import opened Prelude
  import opened VaultTypes

  /** How the write of a record ended: acknowledged, without a trace, or stored although an error was returned. */
  datatype Put = Stored | Rejected | Unreported

  /** One call of `append`: the number is consumed whatever becomes of the write. */
  datatype Attempt = Attempt(entry: Entry, put: Put)

  predicate Kept(a: Attempt) { a.put != Rejected }

  /** What a sequence of attempts leaves in the store, by sequence number. */
  function StoredBy(attempts: seq<Attempt>): map<nat, Entry>
  {
    map i | 0 <= i < |attempts| && Kept(attempts[i]) :: attempts[i].entry
  }

  /** The entries whose append was acknowledged, in order. */
  function Acknowledged(attempts: seq<Attempt>): seq<Entry>
  {
    if attempts == [] then [] else
      var n := |attempts| - 1;
      Acknowledged(attempts[..n]) + if attempts[n].put == Stored then [attempts[n].entry] else []
  }

  /** The entries that are in the store, in order. */
  function Recorded(attempts: seq<Attempt>): seq<Entry>
  {
    if attempts == [] then [] else
      var n := |attempts| - 1;
      Recorded(attempts[..n]) + if Kept(attempts[n]) then [attempts[n].entry] else []
  }

  /** No write was stored behind an error. */
  ghost predicate AllReported(attempts: seq<Attempt>) { forall i :: 0 <= i < |attempts| ==> attempts[i].put != Unreported }

  lemma {:induction false} FewerAcknowledged(attempts: seq<Attempt>)
    ensures |Acknowledged(attempts)| <= |Recorded(attempts)|
    ensures |Acknowledged(attempts)| == |Recorded(attempts)| ==> AllReported(attempts)
    decreases |attempts|
  {
    if attempts != [] {
      var n := |attempts| - 1;
      assert attempts == attempts[..n] + [attempts[n]];
      FewerAcknowledged(attempts[..n]);
    }
  }

  /** The store holds exactly what was acknowledged if and only if no write was stored behind an error. */
  lemma {:induction false} RecordedIffReported(attempts: seq<Attempt>)
    ensures Recorded(attempts) == Acknowledged(attempts) <==> AllReported(attempts)
    decreases |attempts|
  {
    FewerAcknowledged(attempts);
    if attempts != [] {
      var n := |attempts| - 1;
      assert attempts == attempts[..n] + [attempts[n]];
      RecordedIffReported(attempts[..n]);
    }
  }

  lemma {:induction false} AcknowledgedAppend(a: seq<Attempt>, b: seq<Attempt>)
    ensures Acknowledged(a + b) == Acknowledged(a) + Acknowledged(b)
    decreases |b|
  {
    if b == [] {
      assert a + b == a;
    } else {
      var n := |b| - 1;
      assert (a + b)[..|a + b| - 1] == a + b[..n];
      AcknowledgedAppend(a, b[..n]);
    }
  }

  /** The records numbered from `lo` up to but not including `hi`, in ascending order. */
  function InOrder(stored: map<nat, Entry>, lo: nat, hi: nat): seq<Entry>
    decreases hi
  {
    if hi <= lo then [] else InOrder(stored, lo, hi - 1) + if hi - 1 in stored then [stored[hi - 1]] else []
  }

  /** Numbers that are not stored contribute nothing. */
  lemma {:induction false} InOrderGap(stored: map<nat, Entry>, lo: nat, mid: nat, hi: nat)
    requires mid <= hi && forall n :: mid <= n < hi ==> n !in stored
    ensures InOrder(stored, lo, hi) == InOrder(stored, lo, mid)
    decreases hi
  {
    if mid < hi { InOrderGap(stored, lo, mid, hi - 1); }
  }

  lemma {:induction false} InOrderFrame(stored: map<nat, Entry>, stored': map<nat, Entry>, lo: nat, hi: nat)
    requires forall n :: lo <= n < hi ==> (n in stored <==> n in stored') && (n in stored ==> stored[n] == stored'[n])
    ensures InOrder(stored, lo, hi) == InOrder(stored', lo, hi)
    decreases hi
  {
    if lo < hi { InOrderFrame(stored, stored', lo, hi - 1); }
  }

  /** Reading from a number on gives the entries stored from that attempt on. */
  lemma {:induction false} InOrderIsRecorded(attempts: seq<Attempt>, lo: nat)
    requires lo <= |attempts|
    ensures InOrder(StoredBy(attempts), lo, |attempts|) == Recorded(attempts[lo..])
    decreases |attempts|
  {
    if lo < |attempts| {
      var n := |attempts| - 1;
      InOrderIsRecorded(attempts[..n], lo);
      InOrderFrame(StoredBy(attempts), StoredBy(attempts[..n]), lo, n);
      assert attempts[lo..][..n - lo] == attempts[..n][lo..];
    } else {
      assert attempts[lo..] == [];
    }
  }

  class ObjectLog {
    var next: nat
    var stored: map<nat, Entry>
    ghost var attempts: seq<Attempt>

    ghost predicate Valid()
      reads this
    {
      next == |attempts| && stored == StoredBy(attempts)
    }

    constructor ()
      ensures Valid() && attempts == []
    {
      next, stored, attempts := 0, map[], [];
    }

    /** `fetch_add` on the counter, then the write. */
    method Append(entry: Entry, put: Put) returns (seqno: Option<nat>)
      requires Valid()
      modifies this
      ensures Valid() && attempts == old(attempts) + [Attempt(entry, put)]
      ensures seqno == if put == Stored then Some(old(next)) else None
    {
      var number := next;
      next := next + 1;
      attempts := attempts + [Attempt(entry, put)];
      if put != Rejected { stored := stored[number := entry]; }
      seqno := if put == Stored then Some(number) else None;
      assert StoredBy(attempts) == if put != Rejected then old(stored)[number := entry] else old(stored);
    }

    /** `new_with_backend`: the next number is the count of stored records. */
    method Restart()
      requires Valid()
      modifies this
      ensures stored == old(stored) && next == |stored|
      ensures Gapless(old(attempts)) ==> Valid() && |stored| <= |old(attempts)| && attempts == old(attempts)[..|stored|]
    {
      next := |stored|;
      if Gapless(attempts) {
        RestartAbove(attempts);
        Trimmed(attempts);
        attempts := attempts[..|stored|];
      }
    }

    method LastSeqno() returns (last: Option<nat>)
      requires Valid()
      ensures last == if attempts == [] then None else Some(|attempts| - 1)
    {
      last := if next == 0 then None else Some(next - 1);
    }

    /** `read_records_after`: the records above a number, in ascending order. */
    method ReadAfter(after: Option<nat>) returns (entries: seq<Entry>)
      requires Valid() && (after.Some? ==> after.value < next)
      ensures entries == Recorded(attempts[if after.Some? then after.value + 1 else 0..])
    {
      var lo := if after.Some? then after.value + 1 else 0;
      var rest := set n | n in stored && lo <= n;
      ghost var reached := lo;
      entries := [];
      while rest != {}
        invariant forall n :: n in rest <==> n in stored && reached <= n
        invariant lo <= reached <= next && entries == InOrder(stored, lo, reached)
        decreases |rest|
      {
        var n := Smallest(rest);
        InOrderGap(stored, lo, reached, n);
        entries := entries + [stored[n]];
        reached := n + 1;
        rest := rest - {n};
      }
      InOrderGap(stored, lo, reached, next);
      InOrderIsRecorded(attempts, lo);
    }
  }

  method Smallest(s: set<nat>) returns (least: nat)
    requires s != {}
    ensures least in s && forall n :: n in s ==> least <= n
  {
    least :| least in s;
    var rest := s - {least};
    while rest != {}
      invariant rest <= s && least in s && forall n :: n in s && n !in rest ==> least <= n
      decreases |rest|
    {
      var n :| n in rest;
      rest := rest - {n};
      if n < least { least := n; }
    }
  }

  // ---- Restart ----

  /** No append that left no record comes before one that left one. */
  ghost predicate Gapless(attempts: seq<Attempt>)
  {
    forall i, j :: 0 <= i < j < |attempts| && Kept(attempts[j]) ==> Kept(attempts[i])
  }

  ghost predicate AllKept(attempts: seq<Attempt>) { forall i :: 0 <= i < |attempts| ==> Kept(attempts[i]) }

  function Upto(n: nat): (s: set<nat>)
    ensures |s| == n && forall i: nat :: i in s <==> i < n
  {
    if n == 0 then {} else Upto(n - 1) + {n - 1}
  }

  lemma {:induction false} FewerInside(s: set<nat>, t: set<nat>)
    requires s <= t
    ensures |s| <= |t| && (|s| == |t| ==> s == t)
    decreases |s|
  {
    if s != {} {
      var n :| n in s;
      FewerInside(s - {n}, t - {n});
      assert s == (s - {n}) + {n} && t == (t - {n}) + {n};
    } else if t != {} {
      var n :| n in t;
      assert t == (t - {n}) + {n};
    }
  }

  lemma StoredKeys(attempts: seq<Attempt>)
    ensures |StoredBy(attempts)| == |StoredBy(attempts).Keys| && StoredBy(attempts).Keys <= Upto(|attempts|)
  {
  }

  /**
   * After a restart the next number is above every stored one exactly when no append that left no record came
   * before one that left one. Otherwise it is already taken, and an append replaces a record.
   */
  lemma RestartAbove(attempts: seq<Attempt>)
    ensures (forall n :: n in StoredBy(attempts) ==> n < |StoredBy(attempts)|) <==> Gapless(attempts)
  {
    var keys := StoredBy(attempts).Keys;
    var m := |keys|;
    StoredKeys(attempts);
    if forall n :: n in StoredBy(attempts) ==> n < m {
      FewerInside(keys, Upto(m));
      assert keys == Upto(m);
      forall i, j | 0 <= i < j < |attempts| && Kept(attempts[j]) ensures Kept(attempts[i]) { assert j in keys; assert i in Upto(m); }
    }
    if Gapless(attempts) {
      forall n | n in keys ensures n < m {
        forall i | i in Upto(n + 1) ensures i in keys { assert i == n || Kept(attempts[i]); }
        FewerInside(Upto(n + 1), keys);
      }
    }
  }

  /** Gapless attempts are those that left records followed by those that left none. */
  lemma Trimmed(attempts: seq<Attempt>)
    requires Gapless(attempts)
    ensures var m := |StoredBy(attempts)|;
      m <= |attempts| && StoredBy(attempts[..m]) == StoredBy(attempts) && AllKept(attempts[..m])
  {
    var m := |StoredBy(attempts)|;
    StoredKeys(attempts);
    FewerInside(StoredBy(attempts).Keys, Upto(|attempts|));
    RestartAbove(attempts);
    FewerInside(StoredBy(attempts).Keys, Upto(m));
    assert forall i :: i in Upto(m) ==> i in StoredBy(attempts);
    assert forall i :: 0 <= i < m ==> i in Upto(m) && Kept(attempts[i]);
  }

  /**
   * A snapshot records the last number consumed. The first append after a restart is numbered above it, and so is
   * found when the log is read from there, exactly when every append had left a record.
   */
  lemma RestartReadsOn(attempts: seq<Attempt>)
    requires attempts != []
    ensures |StoredBy(attempts)| > |attempts| - 1 <==> AllKept(attempts)
  {
    var keys := StoredBy(attempts).Keys;
    StoredKeys(attempts);
    FewerInside(keys, Upto(|attempts|));
    if |keys| == |attempts| {
      forall i | 0 <= i < |attempts| ensures Kept(attempts[i]) { assert i in Upto(|attempts|); }
    }
    if AllKept(attempts) {
      forall i | i in Upto(|attempts|) ensures i in keys { assert Kept(attempts[i]); }
      FewerInside(Upto(|attempts|), keys);
    }
  }

  /** One failed append between two good ones: after a restart, the next append destroys the second. */
  lemma GapOverwrites(a: Entry, b: Entry, c: Entry)
    requires b != c
    ensures var attempts := [Attempt(a, Stored), Attempt(b, Rejected), Attempt(b, Stored)];
      var stored := StoredBy(attempts);
      && 2 in stored && stored[2] == b && |stored| == 2
      && stored[|stored| := c][2] == c
  {
    var attempts := [Attempt(a, Stored), Attempt(b, Rejected), Attempt(b, Stored)];
    var stored := StoredBy(attempts);
    assert stored.Keys == {0, 2};
    assert |stored| == |stored.Keys|;
  }

  /**
   * Snapshot plus suffix: whatever became of the appends before the snapshot and after it, reading above the number the
   * snapshot recorded gives the entries stored after it, and those are the acknowledged ones if and only if no write
   * after it was stored behind an error.
   */
  lemma SuffixIsExact(before: seq<Attempt>, later: seq<Attempt>)
    ensures var all := before + later;
      && InOrder(StoredBy(all), |before|, |all|) == Recorded(later)
      && (InOrder(StoredBy(all), |before|, |all|) == Acknowledged(later) <==> AllReported(later))
  {
    InOrderIsRecorded(before + later, |before|);
    assert (before + later)[|before|..] == later;
    RecordedIffReported(later);
  }

  // ---- Several sessions ----

  /** The numbers still consumed after a restart. */
  function Restarted(attempts: seq<Attempt>): seq<Attempt>
  {
    if |StoredBy(attempts)| <= |attempts| then attempts[..|StoredBy(attempts)|] else attempts
  }

  /** The log after sessions with a restart before each. */
  function Numbered(before: seq<Attempt>, sessions: seq<seq<Attempt>>): seq<Attempt>
  {
    if sessions == [] then before else
      var n := |sessions| - 1;
      (if n == 0 then before else Restarted(Numbered(before, sessions[..n]))) + sessions[n]
  }

  /** No restart finds a gap. */
  ghost predicate GaplessSessions(before: seq<Attempt>, sessions: seq<seq<Attempt>>)
  {
    forall n :: 0 < n < |sessions| ==> Gapless(Numbered(before, sessions[..n]))
  }

  function RecordedIn(sessions: seq<seq<Attempt>>): seq<Entry>
  {
    if sessions == [] then [] else RecordedIn(sessions[..|sessions| - 1]) + Recorded(sessions[|sessions| - 1])
  }

  lemma {:induction false} RecordedAppend(a: seq<Attempt>, b: seq<Attempt>)
    ensures Recorded(a + b) == Recorded(a) + Recorded(b)
    decreases |b|
  {
    if b == [] {
      assert a + b == a;
    } else {
      var n := |b| - 1;
      assert (a + b)[..|a + b| - 1] == a + b[..n];
      RecordedAppend(a, b[..n]);
    }
  }

  /**
   * A restart keeps the numbers up to a snapshot's if and only if every append before the snapshot had left a record; it
   * then forgets none of the records since.
   */
  lemma RestartKeepsSuffix(before: seq<Attempt>, later: seq<Attempt>)
    requires Gapless(before + later)
    ensures |before| <= |Restarted(before + later)| <==> AllKept(before)
    ensures AllKept(before) ==> before <= Restarted(before + later) && Recorded(Restarted(before + later)[|before|..]) == Recorded(later)
  {
    var all := before + later;
    var m := |StoredBy(all)|;
    Trimmed(all);
    if m >= |before| { assert forall i :: 0 <= i < |before| ==> before[i] == all[..m][i]; }
    if AllKept(before) {
      KeptCount(before, later);
      InOrderIsRecorded(all, |before|);
      InOrderIsRecorded(all[..m], |before|);
      assert all[|before|..] == later;
      RestartAbove(all);
      InOrderGap(StoredBy(all), |before|, m, |all|);
      InOrderFrame(StoredBy(all), StoredBy(all[..m]), |before|, m);
    }
  }

  lemma KeptCount(before: seq<Attempt>, later: seq<Attempt>)
    requires AllKept(before)
    ensures |before| <= |StoredBy(before + later)|
  {
    var keys := StoredBy(before + later).Keys;
    forall i | i in Upto(|before|) ensures i in keys { assert (before + later)[i] == before[i]; }
    FewerInside(Upto(|before|), keys);
  }

  /** Whatever restarts come between, reading above a snapshot's number finds the records of every session since. */
  lemma {:induction false} SessionsRead(before: seq<Attempt>, sessions: seq<seq<Attempt>>)
    requires AllKept(before) && GaplessSessions(before, sessions)
    ensures var all := Numbered(before, sessions);
      before <= all && Recorded(all[|before|..]) == RecordedIn(sessions)
      && InOrder(StoredBy(all), |before|, |all|) == RecordedIn(sessions)
    decreases |sessions|
  {
    hide Gapless, StoredBy, InOrder, AllKept, Restarted;
    var all := Numbered(before, sessions);
    if sessions == [] {
      assert all[|before|..] == [] && Recorded([]) == [];
    } else {
      var n := |sessions| - 1;
      assert forall i :: 0 < i < n ==> sessions[..n][..i] == sessions[..i];
      SessionsRead(before, sessions[..n]);
      if n == 0 {
        assert sessions[..n] == [] && RecordedIn([]) == [];
        assert all[|before|..] == sessions[n];
      } else {
        var was := Numbered(before, sessions[..n]);
        assert was == before + was[|before|..];
        RestartKeepsSuffix(before, was[|before|..]);
        var kept := Restarted(was);
        assert all[|before|..] == kept[|before|..] + sessions[n];
        RecordedAppend(kept[|before|..], sessions[n]);
      }
    }
    InOrderIsRecorded(all, |before|);
  }
}
