/**
 * Canonical JSON (enclave/src/handlers.rs, `canonical_json`): sorted keys, no whitespace, strings quoted as in section
 * 7 of RFC 8259. A number is the text the serializer prints for it.
 */
module CanonicalJson {
  import opened Sorting
  import opened ObjectKeys

  datatype Json = Null | Bool(b: bool) | Number(text: string) | Str(s: string) | Arr(items: seq<Json>) | Obj(fields: seq<Field>)

  /** The fields of an object in the order they were inserted. */
  datatype Field = Field(key: string, value: Json)

  // ---- Quoting ----

  function HexDigit(n: nat): char
    requires n < 16
  {
    "0123456789abcdef"[n]
  }

  function Escape(c: char): string
  {
    if c == '\"' then "\\\"" else if c == '\\' then "\\\\"
    else if c as int == 8 then "\\b" else if c as int == 9 then "\\t" else if c as int == 10 then "\\n"
    else if c as int == 12 then "\\f" else if c as int == 13 then "\\r"
    else if c as int < 32 then "\\u00" + [HexDigit(c as int / 16), HexDigit(c as int % 16)]
    else [c]
  }

  function Escaped(s: string): string { if s == "" then "" else Escape(s[0]) + Escaped(s[1..]) }

  function Quote(s: string): string { "\"" + Escaped(s) + "\"" }

  // ---- Printing ----

  datatype Pair = Pair(key: string, text: string)

  predicate KeyOrder(a: Pair, b: Pair) { NotAfter(a.key, b.key) }

  function Member(p: Pair): string { Quote(p.key) + ":" + p.text }

  function Joined(ps: seq<Pair>): string
  {
    if ps == [] then "" else if |ps| == 1 then Member(ps[0]) else Member(ps[0]) + "," + Joined(ps[1..])
  }

  function Canonical(v: Json): string
    decreases v, 0
  {
    match v
    case Null => "null"
    case Bool(b) => if b then "true" else "false"
    case Number(text) => text
    case Str(s) => Quote(s)
    case Arr(items) => "[" + Listed(items) + "]"
    case Obj(fields) => "{" + Joined(Sorted(Pairs(fields), KeyOrder)) + "}"
  }

  function Listed(items: seq<Json>): string
    decreases items, 1
  {
    if items == [] then "" else if |items| == 1 then Canonical(items[0]) else Canonical(items[0]) + "," + Listed(items[1..])
  }

  function Pairs(fields: seq<Field>): seq<Pair>
    decreases fields, 1
  {
    if fields == [] then [] else [Pair(fields[0].key, Canonical(fields[0].value))] + Pairs(fields[1..])
  }

  // ---- Meaning ----

  /** A JSON tree with objects as maps: what the text stands for. */
  datatype Value = VNull | VBool(b: bool) | VNumber(text: string) | VStr(s: string) | VArr(items: seq<Value>) | VObj(fields: map<string, Value>)

  function Meaning(v: Json): Value
    decreases v, 0
  {
    match v
    case Null => VNull
    case Bool(b) => VBool(b)
    case Number(text) => VNumber(text)
    case Str(s) => VStr(s)
    case Arr(items) => VArr(Meanings(items))
    case Obj(fields) => VObj(FieldMap(fields))
  }

  function Meanings(items: seq<Json>): seq<Value>
    decreases items, 1
  {
    if items == [] then [] else [Meaning(items[0])] + Meanings(items[1..])
  }

  function FieldMap(fields: seq<Field>): map<string, Value>
    decreases fields, 1
  {
    if fields == [] then map[] else FieldMap(fields[1..])[fields[0].key := Meaning(fields[0].value)]
  }

  predicate NumberChar(c: char) { '0' <= c <= '9' || c == '-' || c == '+' || c == '.' || c == 'e' || c == 'E' }

  predicate NumberText(text: string)
  {
    text != "" && ('0' <= text[0] <= '9' || text[0] == '-') && forall i :: 0 <= i < |text| ==> NumberChar(text[i])
  }

  /** Keys of an object are distinct, and numbers print as JSON numbers. */
  predicate WellFormed(v: Json)
    decreases v, 0
  {
    match v
    case Number(text) => NumberText(text)
    case Arr(items) => forall i :: 0 <= i < |items| ==> WellFormed(items[i])
    case Obj(fields) =>
      && (forall i :: 0 <= i < |fields| ==> WellFormed(fields[i].value))
      && (forall i, j :: 0 <= i < j < |fields| ==> fields[i].key != fields[j].key)
    case _ => true
  }

  // ---- Reading back ----

  predicate PlainChar(c: char) { c != '\"' && c != '\\' && c as int >= 32 }

  lemma EscapeStarts(c: char)
    ensures Escape(c) != "" && Escape(c)[0] != '\"'
    ensures PlainChar(c) <==> Escape(c)[0] != '\\'
    ensures PlainChar(c) ==> Escape(c) == [c]
    ensures !PlainChar(c) ==> |Escape(c)| >= 2 && (|Escape(c)| == 2 <==> Escape(c)[1] != 'u') && (|Escape(c)| == 2 || |Escape(c)| == 6)
  {
  }

  lemma HexInjective(a: nat, b: nat)
    requires a < 16 && b < 16 && HexDigit(a) == HexDigit(b)
    ensures a == b
  {
  }

  lemma EscapeInjective(c: char, d: char)
    requires Escape(c) == Escape(d)
    ensures c == d
  {
    EscapeStarts(c);
    EscapeStarts(d);
    if !PlainChar(c) && |Escape(c)| == 6 {
      assert Escape(c)[4] == HexDigit(c as int / 16) && Escape(c)[5] == HexDigit(c as int % 16);
      assert Escape(d)[4] == HexDigit(d as int / 16) && Escape(d)[5] == HexDigit(d as int % 16);
      HexInjective(c as int / 16, d as int / 16);
      HexInjective(c as int % 16, d as int % 16);
    }
  }

  /** No character's code is the beginning of another's. */
  lemma EscapePrefix(c: char, d: char, u: string, w: string)
    requires Escape(c) + u == Escape(d) + w
    ensures c == d && u == w
  {
    hide Escape;
    EscapeStarts(c);
    EscapeStarts(d);
    var a, b := Escape(c), Escape(d);
    assert (a + u)[0] == a[0] && (b + w)[0] == b[0];
    if !PlainChar(c) { assert (a + u)[1] == a[1] && (b + w)[1] == b[1]; }
    assert |a| == |b|;
    assert (a + u)[..|a|] == a && (b + w)[..|b|] == b;
    assert (a + u)[|a|..] == u && (b + w)[|b|..] == w;
    EscapeInjective(c, d);
  }

  /** The closing quote is told from the first character of a code. */
  lemma ClosesWhenEmpty(s: string, x: string)
    ensures var text := Escaped(s) + ("\"" + x); text[0] == '\"' <==> s == ""
  {
    hide Escape;
    if s != "" {
      EscapeStarts(s[0]);
      assert (Escape(s[0]) + Escaped(s[1..]) + ("\"" + x))[0] == Escape(s[0])[0];
    }
  }

  lemma {:induction false} EscapedReads(s: string, t: string, x: string, y: string)
    requires Escaped(s) + ("\"" + x) == Escaped(t) + ("\"" + y)
    ensures s == t && x == y
  {
    hide Escape;
    ClosesWhenEmpty(s, x);
    ClosesWhenEmpty(t, y);
    if s == "" {
      assert x == (Escaped(s) + ("\"" + x))[1..] && y == (Escaped(t) + ("\"" + y))[1..];
    } else {
      assert Escaped(s) + ("\"" + x) == Escape(s[0]) + (Escaped(s[1..]) + ("\"" + x));
      assert Escaped(t) + ("\"" + y) == Escape(t[0]) + (Escaped(t[1..]) + ("\"" + y));
      EscapePrefix(s[0], t[0], Escaped(s[1..]) + ("\"" + x), Escaped(t[1..]) + ("\"" + y));
      EscapedReads(s[1..], t[1..], x, y);
      assert s == [s[0]] + s[1..] && t == [t[0]] + t[1..];
    }
  }

  /** A quoted string ends where it says. */
  lemma QuoteReads(s: string, t: string, x: string, y: string)
    requires Quote(s) + x == Quote(t) + y
    ensures s == t && x == y
  {
    hide Escaped;
    assert Quote(s) + x == ["\""[0]] + (Escaped(s) + ("\"" + x));
    assert Quote(t) + y == ["\""[0]] + (Escaped(t) + ("\"" + y));
    assert (Quote(s) + x)[1..] == Escaped(s) + ("\"" + x) && (Quote(t) + y)[1..] == Escaped(t) + ("\"" + y);
    EscapedReads(s, t, x, y);
  }

  /** What may follow a value: nothing, a comma or a closing bracket. */
  predicate Ends(x: string) { x == "" || x[0] == ',' || x[0] == ']' || x[0] == '}' }

  lemma NumberGoesOn(t: string, x: string)
    requires Ends(x) && forall i :: 0 <= i < |t| ==> NumberChar(t[i])
    ensures t + x != "" && NumberChar((t + x)[0]) <==> t != ""
  {
    if t != "" { assert (t + x)[0] == t[0]; }
  }

  lemma {:induction false} NumberReads(t: string, u: string, x: string, y: string)
    requires (forall i :: 0 <= i < |t| ==> NumberChar(t[i])) && (forall i :: 0 <= i < |u| ==> NumberChar(u[i]))
    requires Ends(x) && Ends(y) && t + x == u + y
    ensures t == u && x == y
  {
    NumberGoesOn(t, x);
    NumberGoesOn(u, y);
    if t == "" {
      assert t + x == x && u + y == y;
    } else {
      assert (t + x)[0] == t[0] && (u + y)[0] == u[0];
      assert (t + x)[1..] == t[1..] + x && (u + y)[1..] == u[1..] + y;
      NumberReads(t[1..], u[1..], x, y);
      assert t == [t[0]] + t[1..] && u == [u[0]] + u[1..];
    }
  }

  /** The first character tells what kind of value follows. */
  function Start(v: Json): char
    requires WellFormed(v)
  {
    match v
    case Null => 'n'
    case Bool(b) => if b then 't' else 'f'
    case Number(text) => text[0]
    case Str(_) => '\"'
    case Arr(_) => '['
    case Obj(_) => '{'
  }

  lemma StartsWith(v: Json)
    requires WellFormed(v)
    ensures Canonical(v) != "" && Canonical(v)[0] == Start(v) && Start(v) != ']' && Start(v) != '}' && Start(v) != ','
  {
    hide Escaped, Listed, Joined, Sorted, Pairs;
  }

  lemma SameKind(v: Json, w: Json, x: string, y: string)
    requires WellFormed(v) && WellFormed(w) && Canonical(v) + x == Canonical(w) + y
    ensures (v.Null? <==> w.Null?) && (v.Bool? <==> w.Bool?) && (v.Number? <==> w.Number?)
    ensures (v.Str? <==> w.Str?) && (v.Arr? <==> w.Arr?) && (v.Obj? <==> w.Obj?) && (v.Bool? ==> v.b == w.b)
  {
    hide Canonical;
    StartsWith(v);
    StartsWith(w);
    assert (Canonical(v) + x)[0] == Start(v) && (Canonical(w) + y)[0] == Start(w);
  }

  lemma Regroup(a: string, b: string, c: string, d: string)
    ensures (a + b + c) + d == a + (b + (c + d))
  {
  }

  /** What remains after a first part of known length. */
  lemma Remainder(a: string, b: string)
    ensures (a + b)[|a|..] == b
  {
  }

  lemma ArrayText(items: seq<Json>, x: string)
    ensures Canonical(Arr(items)) + x == "[" + (Listed(items) + ("]" + x))
  {
    hide Listed;
    Regroup("[", Listed(items), "]", x);
  }

  lemma ObjectText(fields: seq<Field>, x: string)
    ensures Canonical(Obj(fields)) + x == "{" + (Joined(Sorted(Pairs(fields), KeyOrder)) + ("}" + x))
  {
    hide Joined, Sorted, Pairs;
    Regroup("{", Joined(Sorted(Pairs(fields), KeyOrder)), "}", x);
  }

  /**
   * Unique readability: canonical texts, each followed by something a value can be followed by, agree only if the
   * values mean the same and what follows is the same.
   */
  lemma {:induction false} Reads(v: Json, w: Json, x: string, y: string)
    requires WellFormed(v) && WellFormed(w) && Ends(x) && Ends(y) && Canonical(v) + x == Canonical(w) + y
    ensures Meaning(v) == Meaning(w) && x == y
    decreases v, 0
  {
    hide Listed, Joined, Sorted, Pairs, Quote, Meanings, FieldMap;
    SameKind(v, w, x, y);
    match v
    case Null => Remainder("null", x); Remainder("null", y);
    case Bool(b) => Remainder(Canonical(v), x); Remainder(Canonical(v), y);
    case Number(text) => NumberReads(text, w.text, x, y);
    case Str(s) => QuoteReads(s, w.s, x, y);
    case Arr(items) =>
      ArrayText(items, x);
      ArrayText(w.items, y);
      Remainder("[", Listed(items) + ("]" + x));
      Remainder("[", Listed(w.items) + ("]" + y));
      ListReads(items, w.items, x, y);
    case Obj(fields) =>
      ObjectText(fields, x);
      ObjectText(w.fields, y);
      Remainder("{", Joined(Sorted(Pairs(fields), KeyOrder)) + ("}" + x));
      Remainder("{", Joined(Sorted(Pairs(w.fields), KeyOrder)) + ("}" + y));
      ObjectReads(fields, w.fields, x, y);
  }

  lemma ListGoesOn(items: seq<Json>, x: string)
    requires forall i :: 0 <= i < |items| ==> WellFormed(items[i])
    ensures var text := Listed(items) + ("]" + x); text[0] == ']' <==> items == []
    ensures items != [] ==> Listed(items) + ("]" + x) == Canonical(items[0]) + ListRest(items, x) && Ends(ListRest(items, x))
  {
    hide Canonical;
    if items != [] {
      StartsWith(items[0]);
      Regroup(Canonical(items[0]), ",", Listed(items[1..]), "]" + x);
      assert Listed(items) + ("]" + x) == Canonical(items[0]) + ListRest(items, x);
      assert (Canonical(items[0]) + ListRest(items, x))[0] == Canonical(items[0])[0];
    }
  }

  function ListRest(items: seq<Json>, x: string): string
    requires items != []
  {
    if |items| == 1 then "]" + x else "," + (Listed(items[1..]) + ("]" + x))
  }

  lemma {:induction false} ListReads(items: seq<Json>, others: seq<Json>, x: string, y: string)
    requires (forall i :: 0 <= i < |items| ==> WellFormed(items[i])) && (forall i :: 0 <= i < |others| ==> WellFormed(others[i]))
    requires Listed(items) + ("]" + x) == Listed(others) + ("]" + y)
    ensures Meanings(items) == Meanings(others) && x == y
    decreases items, 1
  {
    hide Canonical, Listed;
    ListGoesOn(items, x);
    ListGoesOn(others, y);
    if items == [] {
      EmptyList();
      assert x == (Listed(items) + ("]" + x))[1..] && y == (Listed(others) + ("]" + y))[1..];
    } else {
      Reads(items[0], others[0], ListRest(items, x), ListRest(others, y));
      assert |items| == 1 <==> |others| == 1 by { assert ListRest(items, x)[0] == ListRest(others, y)[0]; }
      if |items| == 1 {
        assert x == ListRest(items, x)[1..] && y == ListRest(others, y)[1..];
        assert items[1..] == [] && others[1..] == [];
      } else {
        assert ListRest(items, x)[1..] == Listed(items[1..]) + ("]" + x) && ListRest(others, y)[1..] == Listed(others[1..]) + ("]" + y);
        ListReads(items[1..], others[1..], x, y);
      }
    }
  }

  lemma EmptyList()
    ensures Listed([]) == ""
  {
  }

  // ---- Objects ----

  lemma {:induction false} PairsAt(fields: seq<Field>)
    ensures |Pairs(fields)| == |fields|
    ensures forall i :: 0 <= i < |fields| ==> Pairs(fields)[i] == Pair(fields[i].key, Canonical(fields[i].value))
  {
    if fields != [] { PairsAt(fields[1..]); }
  }

  lemma {:induction false} FieldMapAt(fields: seq<Field>)
    requires forall i, j :: 0 <= i < j < |fields| ==> fields[i].key != fields[j].key
    ensures forall i :: 0 <= i < |fields| ==> fields[i].key in FieldMap(fields) && FieldMap(fields)[fields[i].key] == Meaning(fields[i].value)
    ensures forall k :: k in FieldMap(fields) ==> exists i :: 0 <= i < |fields| && fields[i].key == k
  {
    if fields != [] {
      FieldMapAt(fields[1..]);
      var rest := fields[1..];
      assert forall i :: 0 < i < |fields| ==> fields[i] == rest[i - 1];
      forall k | k in FieldMap(fields) ensures exists i :: 0 <= i < |fields| && fields[i].key == k {
        if k != fields[0].key {
          var i :| 0 <= i < |rest| && rest[i].key == k;
          assert fields[i + 1].key == k;
        }
      }
    }
  }

  /** Every pair was printed from some field. */
  ghost predicate PrintedFrom(ps: seq<Pair>, fields: seq<Field>)
  {
    forall p :: p in ps ==> exists i :: 0 <= i < |fields| && p == Pair(fields[i].key, Canonical(fields[i].value))
  }

  lemma SortedPrinted(fields: seq<Field>)
    ensures var ps := Sorted(Pairs(fields), KeyOrder);
      && PrintedFrom(ps, fields) && |ps| == |fields|
      && (forall i :: 0 <= i < |fields| ==> Pair(fields[i].key, Canonical(fields[i].value)) in ps)
  {
    hide Canonical, Sorted;
    PairsAt(fields);
    var ps := Pairs(fields);
    SortedPermutes(ps, KeyOrder);
    SameMembers(ps, Sorted(ps, KeyOrder));
    forall i | 0 <= i < |fields| ensures Pair(fields[i].key, Canonical(fields[i].value)) in Sorted(ps, KeyOrder) { assert ps[i] in ps; }
    forall p | p in Sorted(ps, KeyOrder) ensures exists i :: 0 <= i < |fields| && p == Pair(fields[i].key, Canonical(fields[i].value)) {
      assert p in ps;
    }
  }

  function KeysOf(ps: seq<Pair>): seq<string> { if ps == [] then [] else [ps[0].key] + KeysOf(ps[1..]) }

  ghost predicate AgreeOn<K, V>(ks: seq<K>, m: map<K, V>, n: map<K, V>)
  {
    forall k :: k in ks ==> k in m && k in n && m[k] == n[k]
  }

  /** Same keys in the same order, with the same meanings. */
  ghost predicate SameMembersOf<V>(ps: seq<Pair>, qs: seq<Pair>, m: map<string, V>, n: map<string, V>)
  {
    KeysOf(ps) == KeysOf(qs) && AgreeOn(KeysOf(ps), m, n)
  }

  function JoinRest(ps: seq<Pair>, x: string): string
    requires ps != []
  {
    if |ps| == 1 then "}" + x else "," + (Joined(ps[1..]) + ("}" + x))
  }

  lemma MemberText(p: Pair, r: string)
    ensures Member(p) + r == Quote(p.key) + (":" + (p.text + r)) && (Member(p) + r)[0] == '\"'
  {
    hide Escaped;
    Regroup(Quote(p.key), ":", p.text, r);
    assert Quote(p.key)[0] == '\"';
  }

  lemma JoinGoesOn(ps: seq<Pair>, x: string)
    ensures var text := Joined(ps) + ("}" + x); text[0] == '}' <==> ps == []
    ensures ps != [] ==> Joined(ps) + ("}" + x) == Member(ps[0]) + JoinRest(ps, x) && Ends(JoinRest(ps, x))
  {
    hide Member;
    if ps != [] {
      Regroup(Member(ps[0]), ",", Joined(ps[1..]), "}" + x);
      assert Joined(ps) + ("}" + x) == Member(ps[0]) + JoinRest(ps, x);
      MemberText(ps[0], JoinRest(ps, x));
    }
  }

  lemma MemberReads(p: Pair, q: Pair, r: string, t: string)
    requires Member(p) + r == Member(q) + t
    ensures p.key == q.key && p.text + r == q.text + t
  {
    hide Member, Quote;
    MemberText(p, r);
    MemberText(q, t);
    QuoteReads(p.key, q.key, ":" + (p.text + r), ":" + (q.text + t));
    Remainder(":", p.text + r);
    Remainder(":", q.text + t);
  }

  lemma FirstMember(fields: seq<Field>, others: seq<Field>, p: Pair, q: Pair, r: string, t: string)
    requires WellFormed(Obj(fields)) && WellFormed(Obj(others)) && PrintedFrom([p], fields) && PrintedFrom([q], others)
    requires Ends(r) && Ends(t) && Member(p) + r == Member(q) + t
    ensures p.key == q.key && p.key in FieldMap(fields) && p.key in FieldMap(others) && FieldMap(fields)[p.key] == FieldMap(others)[p.key]
    ensures r == t
    decreases fields, 0
  {
    hide Member, Canonical, FieldMap;
    MemberReads(p, q, r, t);
    assert p in [p] && q in [q];
    var i :| 0 <= i < |fields| && p == Pair(fields[i].key, Canonical(fields[i].value));
    var j :| 0 <= j < |others| && q == Pair(others[j].key, Canonical(others[j].value));
    Reads(fields[i].value, others[j].value, r, t);
    FieldMapAt(fields);
    FieldMapAt(others);
  }

  lemma ConsSame(ps: seq<Pair>, qs: seq<Pair>, m: map<string, Value>, n: map<string, Value>)
    requires ps != [] && qs != [] && SameMembersOf(ps[1..], qs[1..], m, n)
    requires ps[0].key == qs[0].key && ps[0].key in m && ps[0].key in n && m[ps[0].key] == n[ps[0].key]
    ensures SameMembersOf(ps, qs, m, n)
  {
  }

  lemma PrintedParts(ps: seq<Pair>, fields: seq<Field>)
    requires PrintedFrom(ps, fields) && ps != []
    ensures PrintedFrom([ps[0]], fields) && PrintedFrom(ps[1..], fields)
  {
    hide Canonical;
    assert forall p :: p in ps[1..] || p in [ps[0]] ==> p in ps;
  }

  /** Members read back one by one, whatever order they were printed in. */
  lemma {:induction false} MembersRead(fields: seq<Field>, others: seq<Field>, ps: seq<Pair>, qs: seq<Pair>, x: string, y: string)
    requires WellFormed(Obj(fields)) && WellFormed(Obj(others)) && PrintedFrom(ps, fields) && PrintedFrom(qs, others)
    requires Joined(ps) + ("}" + x) == Joined(qs) + ("}" + y)
    ensures SameMembersOf(ps, qs, FieldMap(fields), FieldMap(others)) && x == y
    decreases fields, 1, |ps|
  {
    hide Joined, Member, Canonical, FieldMap, PrintedFrom, SameMembersOf, WellFormed;
    JoinGoesOn(ps, x);
    JoinGoesOn(qs, y);
    NothingJoined();
    NoMembers(FieldMap(fields), FieldMap(others));
    if ps == [] {
      assert Joined(ps) + ("}" + x) == "}" + x && Joined(qs) + ("}" + y) == "}" + y;
      Remainder("}", x);
      Remainder("}", y);
    } else {
      PrintedParts(ps, fields);
      PrintedParts(qs, others);
      FirstMember(fields, others, ps[0], qs[0], JoinRest(ps, x), JoinRest(qs, y));
      assert |ps| == 1 <==> |qs| == 1 by { assert JoinRest(ps, x)[0] == JoinRest(qs, y)[0]; }
      if |ps| == 1 {
        Remainder("}", x);
        Remainder("}", y);
        assert ps[1..] == [] && qs[1..] == [];
      } else {
        Remainder(",", Joined(ps[1..]) + ("}" + x));
        Remainder(",", Joined(qs[1..]) + ("}" + y));
        MembersRead(fields, others, ps[1..], qs[1..], x, y);
      }
      ConsSame(ps, qs, FieldMap(fields), FieldMap(others));
    }
  }

  lemma NoMembers(m: map<string, Value>, n: map<string, Value>)
    ensures SameMembersOf([], [], m, n)
  {
  }

  lemma NothingJoined()
    ensures Joined([]) == ""
  {
  }

  lemma {:induction false} ObjectReads(fields: seq<Field>, others: seq<Field>, x: string, y: string)
    requires WellFormed(Obj(fields)) && WellFormed(Obj(others))
    requires Joined(Sorted(Pairs(fields), KeyOrder)) + ("}" + x) == Joined(Sorted(Pairs(others), KeyOrder)) + ("}" + y)
    ensures FieldMap(fields) == FieldMap(others) && x == y
    decreases fields, 2
  {
    hide Joined, Sorted, Pairs, FieldMap, Canonical, Covers, AgreeOn, KeysOf;
    SortedPrinted(fields);
    SortedPrinted(others);
    var ps, qs := Sorted(Pairs(fields), KeyOrder), Sorted(Pairs(others), KeyOrder);
    MembersRead(fields, others, ps, qs, x, y);
    KeysCovered(fields, ps);
    KeysCovered(others, qs);
    SameMaps(KeysOf(ps), FieldMap(fields), FieldMap(others));
  }

  /** Every key of the map was printed. */
  ghost predicate Covers<K, V>(ks: seq<K>, m: map<K, V>) { forall k :: k in m ==> k in ks }

  lemma {:induction false} KeyListed(ps: seq<Pair>, p: Pair)
    requires p in ps
    ensures p.key in KeysOf(ps)
  {
    if ps[0] != p { KeyListed(ps[1..], p); }
  }

  lemma KeysCovered(fields: seq<Field>, ps: seq<Pair>)
    requires WellFormed(Obj(fields)) && forall i :: 0 <= i < |fields| ==> Pair(fields[i].key, Canonical(fields[i].value)) in ps
    ensures Covers(KeysOf(ps), FieldMap(fields))
  {
    hide FieldMap, Canonical;
    FieldMapAt(fields);
    forall k | k in FieldMap(fields) ensures k in KeysOf(ps) {
      var i :| 0 <= i < |fields| && fields[i].key == k;
      KeyListed(ps, Pair(fields[i].key, Canonical(fields[i].value)));
    }
  }

  lemma SameMaps<K, V>(ks: seq<K>, m: map<K, V>, n: map<K, V>)
    requires AgreeOn(ks, m, n) && Covers(ks, m) && Covers(ks, n)
    ensures m == n
  {
  }

  /** Equal canonical text means equal payment details. */
  lemma Injective(v: Json, w: Json)
    requires WellFormed(v) && WellFormed(w) && Canonical(v) == Canonical(w)
    ensures Meaning(v) == Meaning(w)
  {
    assert Canonical(v) + "" == Canonical(v) && Canonical(w) + "" == Canonical(w);
    Reads(v, w, "", "");
  }

  // ---- Key order does not matter ----

  lemma KeyOrderIsOrdering()
    ensures Ordering(KeyOrder)
  {
    StringOrder();
    forall a: Pair, b: Pair ensures KeyOrder(a, b) || KeyOrder(b, a) { assert NotAfter(a.key, b.key) || NotAfter(b.key, a.key); }
    forall a: Pair, b: Pair, c: Pair | KeyOrder(a, b) && KeyOrder(b, c) ensures KeyOrder(a, c) {
      assert NotAfter(a.key, b.key) && NotAfter(b.key, c.key);
    }
  }

  ghost predicate KeysOnce(ps: seq<Pair>) { forall i, j :: 0 <= i < j < |ps| ==> ps[i].key != ps[j].key }

  lemma {:induction false} OnceEach(ps: seq<Pair>, p: Pair)
    requires KeysOnce(ps)
    ensures multiset(ps)[p] == if p in ps then 1 else 0
  {
    if ps != [] {
      var n := |ps| - 1;
      assert ps == ps[..n] + [ps[n]];
      OnceEach(ps[..n], p);
      if p == ps[n] { assert p !in ps[..n]; }
    }
  }

  /** Two lists of pairs with distinct keys and the same members sort to the same list. */
  lemma SortForgetsOrder(ps: seq<Pair>, qs: seq<Pair>)
    requires KeysOnce(ps) && KeysOnce(qs) && forall p :: p in ps <==> p in qs
    ensures Sorted(ps, KeyOrder) == Sorted(qs, KeyOrder)
  {
    hide Sorted;
    forall p ensures multiset(ps)[p] == multiset(qs)[p] { OnceEach(ps, p); OnceEach(qs, p); }
    assert multiset(ps) == multiset(qs);
    KeyOrderIsOrdering();
    SortedPermutes(ps, KeyOrder);
    SortedPermutes(qs, KeyOrder);
    SortedOrdered(ps, KeyOrder);
    SortedOrdered(qs, KeyOrder);
    StrictKeys(ps);
    OrderedUnique(Sorted(ps, KeyOrder), Sorted(qs, KeyOrder), KeyOrder);
  }

  lemma StrictKeys(ps: seq<Pair>)
    requires KeysOnce(ps)
    ensures Strict(Sorted(ps, KeyOrder), KeyOrder)
  {
    hide Sorted;
    var sorted := Sorted(ps, KeyOrder);
    SortedPermutes(ps, KeyOrder);
    SameMembers(ps, sorted);
    forall a, b | a in sorted && b in sorted && KeyOrder(a, b) && KeyOrder(b, a) ensures a == b {
      BeforeTotal(a.key, b.key);
      var i :| 0 <= i < |ps| && ps[i] == a;
      var j :| 0 <= j < |ps| && ps[j] == b;
    }
  }

  lemma {:induction false} MeaningsAt(items: seq<Json>)
    ensures |Meanings(items)| == |items|
    ensures items != [] ==> Meanings(items)[0] == Meaning(items[0]) && Meanings(items)[1..] == Meanings(items[1..])
  {
    if items != [] { MeaningsAt(items[1..]); }
  }

  /** Texts of values that mean the same are the same. */
  lemma {:induction false} SameText(v: Json, w: Json)
    requires WellFormed(v) && WellFormed(w) && Meaning(v) == Meaning(w)
    ensures Canonical(v) == Canonical(w)
    decreases v, 0
  {
    hide Listed, Joined, Sorted, Pairs, Meanings, FieldMap, Quote;
    match v
    case Arr(items) => SameListText(items, w.items);
    case Obj(fields) =>
      SamePairs(fields, w.fields);
      PairsOnce(fields);
      PairsOnce(w.fields);
      SortForgetsOrder(Pairs(fields), Pairs(w.fields));
    case _ =>
  }

  lemma {:induction false} SameListText(items: seq<Json>, others: seq<Json>)
    requires (forall i :: 0 <= i < |items| ==> WellFormed(items[i])) && (forall i :: 0 <= i < |others| ==> WellFormed(others[i]))
    requires Meanings(items) == Meanings(others)
    ensures Listed(items) == Listed(others)
    decreases items, 1
  {
    hide Canonical, Meanings, Meaning;
    MeaningsAt(items);
    MeaningsAt(others);
    if items != [] {
      SameText(items[0], others[0]);
      SameListText(items[1..], others[1..]);
    }
  }

  lemma PairsOnce(fields: seq<Field>)
    requires WellFormed(Obj(fields))
    ensures KeysOnce(Pairs(fields))
  {
    hide Canonical, Pairs;
    PairsAt(fields);
  }

  lemma {:induction false} SamePairs(fields: seq<Field>, others: seq<Field>)
    requires WellFormed(Obj(fields)) && WellFormed(Obj(others)) && FieldMap(fields) == FieldMap(others)
    ensures forall p :: p in Pairs(fields) <==> p in Pairs(others)
    decreases fields, 1
  {
    hide Canonical, Pairs, FieldMap, Meaning;
    PairsAt(fields);
    PairsAt(others);
    FieldMapAt(fields);
    FieldMapAt(others);
    forall i, j | 0 <= i < |fields| && 0 <= j < |others| && fields[i].key == others[j].key
      ensures Pairs(fields)[i] == Pairs(others)[j]
    {
      SameText(fields[i].value, others[j].value);
    }
    forall p | p in Pairs(fields) ensures p in Pairs(others) {
      var i :| 0 <= i < |fields| && Pairs(fields)[i] == p;
      assert fields[i].key in FieldMap(others);
      var j :| 0 <= j < |others| && others[j].key == fields[i].key;
      assert Pairs(others)[j] == p;
    }
    forall p | p in Pairs(others) ensures p in Pairs(fields) {
      var j :| 0 <= j < |others| && Pairs(others)[j] == p;
      assert others[j].key in FieldMap(fields);
      var i :| 0 <= i < |fields| && fields[i].key == others[j].key;
      assert Pairs(fields)[i] == p;
    }
  }

  /** Canonical text is equal exactly when the values mean the same, whatever order their keys were inserted in. */
  lemma CanonicalIffEqual(v: Json, w: Json)
    requires WellFormed(v) && WellFormed(w)
    ensures Canonical(v) == Canonical(w) <==> Meaning(v) == Meaning(w)
  {
    hide Canonical, Meaning, WellFormed;
    if Canonical(v) == Canonical(w) { Injective(v, w); }
    if Meaning(v) == Meaning(w) { SameText(v, w); }
  }
}
