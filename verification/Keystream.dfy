/**
 * The result cipher of a channel request: XOR with a hash counter stream. The enclave decrypts chunk by
 * chunk (enclave/src/asc_manager.rs), the provider encrypts by offset (middleware/src/asc.ts).
 */
module Keystream {
  import opened Prelude

  ghost predicate Blocks32(stream: (Bytes, nat) -> Bytes)
  {
    forall key, n :: |stream(key, n)| == 32
  }

  function ZeroBlock(key: Bytes, n: nat): Bytes { seq(32, i => 0) }

  /** SHA-256 of the label, the key and the block counter: 32 bytes for block `n` of key `key`. */
  type Stream = s: (Bytes, nat) -> Bytes | Blocks32(s) witness ZeroBlock

  /** Byte `i` of the message is combined with byte `i % 32` of block `i / 32`. */
  ghost function Xored(stream: Stream, key: Bytes, data: Bytes): (out: Bytes)
  {
    seq(|data|, i requires 0 <= i < |data| => data[i] ^ stream(key, i / 32)[i % 32])
  }

  /** Encrypting and decrypting are the same operation, applied twice it changes nothing. */
  lemma XorInvolution(stream: Stream, key: Bytes, data: Bytes)
    ensures Xored(stream, key, Xored(stream, key, data)) == data
  {
    var once := Xored(stream, key, data);
    forall i | 0 <= i < |data| ensures once[i] ^ stream(key, i / 32)[i % 32] == data[i] {
      XorTwice(data[i], stream(key, i / 32)[i % 32]);
    }
  }

  lemma XorTwice(x: bv8, y: bv8)
    ensures (x ^ y) ^ y == x
  {
  }

  /** enclave/src/asc_manager.rs `decrypt_with_scalar`: one hash block per 32-byte chunk, bytes pushed in turn. */
  method DecryptWithScalar(stream: Stream, ciphertext: Bytes, key: Bytes) returns (plaintext: Bytes)
    ensures plaintext == Xored(stream, key, ciphertext)
  {
    plaintext := [];
    var block := 0;
    while block * 32 < |ciphertext|
      invariant |plaintext| == if block * 32 < |ciphertext| then block * 32 else |ciphertext|
      invariant plaintext == Xored(stream, key, ciphertext)[..|plaintext|]
      decreases |ciphertext| - block * 32
    {
      var keystream := stream(key, block);
      var end := if block * 32 + 32 < |ciphertext| then block * 32 + 32 else |ciphertext|;
      var chunk := ciphertext[block * 32..end];
      var i := 0;
      while i < |chunk|
        invariant 0 <= i <= |chunk|
        invariant |plaintext| == block * 32 + i
        invariant plaintext == Xored(stream, key, ciphertext)[..|plaintext|]
      {
        assert (block * 32 + i) / 32 == block && (block * 32 + i) % 32 == i;
        plaintext := plaintext + [chunk[i] ^ keystream[i]];
        i := i + 1;
      }
      block := block + 1;
    }
  }

  /** middleware/src/asc.ts `keystreamXor`: fills a preallocated output by offset. */
  method KeystreamXor(stream: Stream, data: array<bv8>, key: Bytes) returns (output: array<bv8>)
    ensures fresh(output) && output[..] == Xored(stream, key, data[..])
  {
    output := new bv8[data.Length];
    ghost var spec := Xored(stream, key, data[..]);
    var offset := 0;
    while offset < data.Length
      invariant offset % 32 == 0
      invariant forall j :: 0 <= j < offset && j < data.Length ==> output[j] == spec[j]
      decreases data.Length - offset
    {
      var keystream := stream(key, offset / 32);
      var i := 0;
      while i < 32 && offset + i < data.Length
        invariant 0 <= i <= 32
        invariant forall j :: 0 <= j < offset + i && j < data.Length ==> output[j] == spec[j]
      {
        assert (offset + i) / 32 == offset / 32 && (offset + i) % 32 == i;
        output[offset + i] := data[offset + i] ^ keystream[i];
        i := i + 1;
      }
      offset := offset + 32;
    }
  }
}
