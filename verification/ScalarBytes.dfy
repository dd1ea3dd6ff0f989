/** Little-endian scalar encodings (`bytesToBigIntLE`, `bigintToBytesLE`, canonical scalars). */
module ScalarBytes {
  import opened Prelude

  /** The order l of the Ed25519 base point, 2^252 + 27742317777372353535851937790883648493. */
  const ORDER: nat := 7237005577332262213973186563042994240857116359379907606001950938285454250989

  ghost function Pow256(n: nat): nat { if n == 0 then 1 else 256 * Pow256(n - 1) }

  lemma OrderFits()
    ensures ORDER <= Pow256(32)
  {
    assert Pow256(4) == 0x1_0000_0000 by { assert Pow256(2) == 0x1_0000; }
    PowAdd(4, 4); PowAdd(8, 8); PowAdd(16, 16);
    assert Pow256(16) == 0x1_0000_0000_0000_0000 * 0x1_0000_0000_0000_0000;
  }

  lemma {:induction false} PowAdd(a: nat, b: nat)
    ensures Pow256(a + b) == Pow256(a) * Pow256(b)
  {
    if a != 0 {
      PowAdd(a - 1, b);
      assert Pow256(a + b) == 256 * (Pow256(a - 1) * Pow256(b));
    }
  }

  /** The number a byte string denotes, least significant byte first. */
  function FromLE(b: Bytes): (n: nat)
  {
    if b == [] then 0 else b[0] as nat + 256 * FromLE(b[1..])
  }

  function ToLE(n: nat, length: nat): (b: Bytes)
  {
    if length == 0 then [] else [(n % 256) as bv8] + ToLE(n / 256, length - 1)
  }

  lemma {:induction false} ToLELength(n: nat, length: nat)
    ensures |ToLE(n, length)| == length
  {
    if length != 0 { ToLELength(n / 256, length - 1); }
  }

  /** Decoding undoes encoding for every number that fits. */
  lemma {:induction false} DecodeEncode(n: nat, length: nat)
    requires n < Pow256(length)
    ensures FromLE(ToLE(n, length)) == n
  {
    if length != 0 {
      var low, high := (n % 256) as bv8, ToLE(n / 256, length - 1);
      DecodeEncode(n / 256, length - 1);
      ByteRoundTrip(n % 256);
      assert ([low] + high)[1..] == high;
    }
  }

  lemma ByteRoundTrip(n: nat)
    requires n < 256
    ensures (n as bv8) as nat == n
  {
    var byte := n as bv8;
    assert byte as nat < 256;
    assert byte as nat == n;
  }

  /** Encoding undoes decoding for every byte string. */
  lemma {:induction false} EncodeDecode(b: Bytes)
    ensures ToLE(FromLE(b), |b|) == b
  {
    if b != [] {
      EncodeDecode(b[1..]);
      var n := FromLE(b);
      assert n % 256 == b[0] as nat && n / 256 == FromLE(b[1..]);
      assert b == [b[0]] + b[1..];
    }
  }

  /** `Scalar::from_canonical_bytes`: 32 bytes whose value is already reduced. */
  function FromCanonical(b: Bytes): Option<nat>
  {
    if |b| == 32 && FromLE(b) < ORDER then Some(FromLE(b)) else None
  }

  function ScalarToBytes(s: nat): Bytes { ToLE(s, 32) }

  /** Canonical bytes and reduced scalars are in one-to-one correspondence. */
  lemma CanonicalRoundTrip(s: nat, b: Bytes)
    ensures s < ORDER ==> FromCanonical(ScalarToBytes(s)) == Some(s)
    ensures FromCanonical(b).Some? ==> FromCanonical(b).value < ORDER && ScalarToBytes(FromCanonical(b).value) == b
  {
    if s < ORDER {
      OrderFits();
      DecodeEncode(s, 32);
      ToLELength(s, 32);
    }
    EncodeDecode(b);
  }

  /** middleware/src/asc.ts `bytesToBigIntLE`: from the last byte to the first. */
  method BytesToBigIntLE(bytes: array<bv8>) returns (value: nat)
    ensures value == FromLE(bytes[..])
  {
    value := 0;
    var i := bytes.Length;
    while i > 0
      invariant 0 <= i <= bytes.Length
      invariant value == FromLE(bytes[i..])
    {
      i := i - 1;
      assert bytes[i..][1..] == bytes[i + 1..];
      value := value * 256 + bytes[i] as nat;
    }
    assert bytes[0..] == bytes[..];
  }

  /** middleware/src/asc.ts `bigintToBytesLE`: reduces modulo the curve order, then fills low byte first. */
  method BigIntToBytesLE(value: int, length: nat) returns (out: array<bv8>)
    ensures fresh(out) && out[..] == ToLE(value % ORDER, length)
  {
    out := new bv8[length];
    var current: nat := value % ORDER;
    var i := 0;
    while i < length
      invariant 0 <= i <= length
      invariant ToLE(value % ORDER, length) == out[..i] + ToLE(current, length - i)
    {
      out[i] := (current % 256) as bv8;
      assert out[..i + 1] == out[..i] + [out[i]];
      current := current / 256;
      i := i + 1;
    }
    assert out[..length] == out[..];
  }
}
