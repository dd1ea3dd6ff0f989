/** The laws asked of a curve can be met: a group on the integers in which 1 has the order of Ed25519's base point. */
module LawfulCurve {
  import opened Prelude
  import opened ScalarBytes
  import opened AdaptorSig

  /** The integers with two coordinates, quotient and remainder by the order, added separately. */
  function Added(a: int, b: int): int
  {
    var s := a % ORDER + b % ORDER;
    a + b - if s >= ORDER then ORDER else 0
  }

  function Negated(a: int): int { if a % ORDER == 0 then 0 - a else ORDER - a }

  /** As many equal bytes as the number is large, one kind for each sign. */
  function Unary(a: int): Bytes { if a >= 0 then seq(a, i => 0) else seq(0 - a, i => 1) }

  function FromUnary(b: Bytes): int { if b == [] || b[0] == 0 then |b| else 0 - |b| }

  function SplitIntegers(): Curve
  {
    Curve(Point(0), Point(1), (p: Point, q: Point) => Point(Added(p.tag, q.tag)), (p: Point) => Point(Negated(p.tag)),
          (p: Point) => Unary(p.tag), (b: Bytes) => Some(Point(FromUnary(b))), (r, key, message) => |r| + |key| + |message|)
  }

  lemma AddedParts(a: int, b: int)
    ensures Added(a, b) % ORDER == (a % ORDER + b % ORDER) % ORDER
    ensures Added(a, b) - Added(a, b) % ORDER == (a - a % ORDER) + (b - b % ORDER)
  {
    var s := a % ORDER + b % ORDER;
    var r := if s >= ORDER then s - ORDER else s;
    assert Added(a, b) == (a / ORDER + b / ORDER) * ORDER + r;
    assert 0 <= r < ORDER;
  }

  lemma AddedAssoc(a: int, b: int, c: int)
    ensures Added(Added(a, b), c) == Added(a, Added(b, c))
  {
    AddedParts(a, b);
    AddedParts(b, c);
    AddedParts(Added(a, b), c);
    AddedParts(a, Added(b, c));
  }

  lemma NegatedCancels(a: int)
    ensures Added(a, Negated(a)) == 0
  {
    var n := Negated(a);
    if a % ORDER == 0 {
      assert a == (a / ORDER) * ORDER && n == (0 - a / ORDER) * ORDER;
      assert n % ORDER == 0;
    } else {
      assert n == (0 - a / ORDER) * ORDER + (ORDER - a % ORDER);
      assert n % ORDER == ORDER - a % ORDER;
    }
  }

  lemma {:induction false} Multiples(n: nat)
    requires n <= ORDER
    ensures Mul(SplitIntegers(), n, Point(1)) == Point(if n == ORDER then 0 else n)
  {
    if n > 0 { Multiples(n - 1); }
  }

  lemma UnaryReads(a: int)
    ensures FromUnary(Unary(a)) == a
  {
  }

  lemma SplitGroup()
    ensures AbelianGroup(SplitIntegers())
  {
    var g := SplitIntegers();
    forall a, b ensures g.add(a, b) == g.add(b, a) {}
    forall a, b, c ensures g.add(g.add(a, b), c) == g.add(a, g.add(b, c)) { AddedAssoc(a.tag, b.tag, c.tag); }
    forall a ensures g.add(a, g.zero) == a {}
    forall a ensures g.add(a, g.neg(a)) == g.zero { NegatedCancels(a.tag); }
  }

  lemma SplitLawful()
    ensures Lawful(SplitIntegers())
  {
    hide AbelianGroup, Mul, Unary, FromUnary;
    var g := SplitIntegers();
    SplitGroup();
    Multiples(ORDER);
    forall k: nat | 0 < k < ORDER ensures Mul(g, k, g.base) != g.zero { Multiples(k); }
    forall p ensures g.decompress(g.compress(p)) == Some(p) { UnaryReads(p.tag); }
  }
}
