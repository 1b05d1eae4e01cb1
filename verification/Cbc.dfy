/**
 CBC mode of crypto/cbc.c over an arbitrary block function: the segment and in-place forms of
 encryption and decryption, against the chaining of section 6.2 of NIST SP 800-38A.
 A buffer is an array of blocks; what is left of a last partial block is the caller's.
 */
module Cbc {

  type Block = seq<bv8>

  /** crypto_xor. */
  function Xor(a: Block, b: Block): (r: Block)
    requires |a| == |b|
    ensures |r| == |a|
  {
    seq(|a|, i requires 0 <= i < |a| => a[i] ^ b[i])
  }

  lemma XorTwice(a: Block, b: Block)
    requires |a| == |b|
    ensures Xor(Xor(a, b), b) == a
  {
    var r := Xor(Xor(a, b), b);
    forall i | 0 <= i < |a| ensures r[i] == a[i] {
      XorByte(a[i], b[i]);
    }
  }

  lemma XorByte(x: bv8, y: bv8)
    ensures (x ^ y) ^ y == x
  {
  }

  lemma XorSwaps(a: Block, b: Block)
    requires |a| == |b|
    ensures Xor(a, b) == Xor(b, a)
  {
  }

  /** A block function of block size n. */
  ghost predicate Sized(n: nat, f: Block -> Block) {
    forall x: Block | |x| == n :: |f(x)| == n
  }

  ghost predicate Inverse(n: nat, enc: Block -> Block, dec: Block -> Block) {
    Sized(n, enc) && Sized(n, dec) && forall x: Block | |x| == n :: dec(enc(x)) == x
  }

  predicate AllSized(n: nat, blocks: seq<Block>) {
    forall i | 0 <= i < |blocks| :: |blocks[i]| == n
  }

  // --------------------------------------------------------------- the mode itself

  /** Each block is xored with the ciphertext before it and encrypted. */
  function Encrypted(n: nat, enc: Block -> Block, iv: Block, p: seq<Block>): (c: seq<Block>)
    requires Sized(n, enc) && |iv| == n && AllSized(n, p)
    ensures |c| == |p| && AllSized(n, c)
    decreases |p|
  {
    if p == [] then []
    else var c := enc(Xor(p[0], iv)); [c] + Encrypted(n, enc, c, p[1..])
  }

  /** Each block is decrypted and xored with the ciphertext before it. */
  function Decrypted(n: nat, dec: Block -> Block, iv: Block, c: seq<Block>): (p: seq<Block>)
    requires Sized(n, dec) && |iv| == n && AllSized(n, c)
    ensures |p| == |c| && AllSized(n, p)
    decreases |c|
  {
    if c == [] then [] else [Xor(dec(c[0]), iv)] + Decrypted(n, dec, c[0], c[1..])
  }

  /** The IV carried on: the last ciphertext block. */
  function Carried(iv: Block, c: seq<Block>): Block {
    if c == [] then iv else c[|c| - 1]
  }

  lemma EncryptedCons(n: nat, enc: Block -> Block, iv: Block, b: Block, p: seq<Block>)
    requires Sized(n, enc) && |iv| == n && |b| == n && AllSized(n, p)
    ensures AllSized(n, [b] + p) && |enc(Xor(b, iv))| == n
    ensures Encrypted(n, enc, iv, [b] + p) == [enc(Xor(b, iv))] + Encrypted(n, enc, enc(Xor(b, iv)), p)
  {
    assert ([b] + p)[1..] == p;
  }

  lemma DecryptedCons(n: nat, dec: Block -> Block, iv: Block, b: Block, c: seq<Block>)
    requires Sized(n, dec) && |iv| == n && |b| == n && AllSized(n, c)
    ensures AllSized(n, [b] + c)
    ensures Decrypted(n, dec, iv, [b] + c) == [Xor(dec(b), iv)] + Decrypted(n, dec, b, c)
  {
    assert ([b] + c)[1..] == c;
  }

  /** Decryption undoes encryption. */
  lemma {:induction false} DecryptUndoesEncrypt(n: nat, enc: Block -> Block, dec: Block -> Block, iv: Block, p: seq<Block>)
    requires Inverse(n, enc, dec) && |iv| == n && AllSized(n, p)
    ensures Decrypted(n, dec, iv, Encrypted(n, enc, iv, p)) == p
    decreases |p|
  {
    if p != [] {
      hide Xor, Encrypted, Decrypted;
      var b, tail := p[0], p[1..];
      assert p == [b] + tail;
      var c := enc(Xor(b, iv));
      EncryptedCons(n, enc, iv, b, tail);
      DecryptedCons(n, dec, iv, c, Encrypted(n, enc, c, tail));
      DecryptUndoesEncrypt(n, enc, dec, c, tail);
      XorTwice(b, iv);
    }
  }

  lemma CarriedCons(iv: Block, b: Block, c: seq<Block>)
    ensures Carried(iv, [b] + c) == Carried(b, c)
  {
  }

  /** Encrypting in two chunks with the carried IV is encrypting at once. */
  lemma {:induction false} EncryptInChunks(n: nat, enc: Block -> Block, iv: Block, p: seq<Block>, q: seq<Block>)
    requires Sized(n, enc) && |iv| == n && AllSized(n, p) && AllSized(n, q)
    ensures var c := Encrypted(n, enc, iv, p);
            && |Carried(iv, c)| == n
            && Encrypted(n, enc, iv, p + q) == c + Encrypted(n, enc, Carried(iv, c), q)
            && Carried(iv, Encrypted(n, enc, iv, p + q)) == Carried(Carried(iv, c), Encrypted(n, enc, Carried(iv, c), q))
    decreases |p|
  {
    if p == [] {
      assert p + q == q;
      assert [] + Encrypted(n, enc, iv, q) == Encrypted(n, enc, iv, q);
    } else {
      hide Xor, Encrypted, Carried;
      var b, tail := p[0], p[1..];
      assert p == [b] + tail && p + q == [b] + (tail + q);
      var c0 := enc(Xor(b, iv));
      EncryptedCons(n, enc, iv, b, tail);
      EncryptedCons(n, enc, iv, b, tail + q);
      EncryptInChunks(n, enc, c0, tail, q);
      CarriedCons(iv, c0, Encrypted(n, enc, c0, tail));
      CarriedCons(iv, c0, Encrypted(n, enc, c0, tail + q));
      Assoc([c0], Encrypted(n, enc, c0, tail), Encrypted(n, enc, Carried(iv, Encrypted(n, enc, iv, p)), q));
    }
  }

  lemma Assoc(a: seq<Block>, b: seq<Block>, c: seq<Block>)
    ensures a + b + c == a + (b + c)
  {
  }

  /** Decrypting in two chunks with the carried IV is decrypting at once. */
  lemma {:induction false} DecryptInChunks(n: nat, dec: Block -> Block, iv: Block, c: seq<Block>, d: seq<Block>)
    requires Sized(n, dec) && |iv| == n && AllSized(n, c) && AllSized(n, d)
    ensures |Carried(iv, c)| == n
    ensures Decrypted(n, dec, iv, c + d) == Decrypted(n, dec, iv, c) + Decrypted(n, dec, Carried(iv, c), d)
    ensures Carried(iv, c + d) == Carried(Carried(iv, c), d)
    decreases |c|
  {
    if c == [] {
      assert c + d == d;
      assert [] + Decrypted(n, dec, iv, d) == Decrypted(n, dec, iv, d);
    } else {
      hide Xor, Decrypted, Carried;
      var b, tail := c[0], c[1..];
      assert c == [b] + tail && c + d == [b] + (tail + d);
      DecryptedCons(n, dec, iv, b, tail);
      DecryptedCons(n, dec, iv, b, tail + d);
      DecryptInChunks(n, dec, b, tail, d);
      CarriedCons(iv, b, tail);
      CarriedCons(iv, b, tail + d);
      Assoc([Xor(dec(b), iv)], Decrypted(n, dec, b, tail), Decrypted(n, dec, Carried(b, tail), d));
    }
  }

  /** Block i of a decryption needs only the two ciphertext blocks around it. */
  lemma {:induction false} DecryptedAt(n: nat, dec: Block -> Block, iv: Block, c: seq<Block>, i: nat)
    requires Sized(n, dec) && |iv| == n && AllSized(n, c) && i < |c|
    ensures Decrypted(n, dec, iv, c)[i] == Xor(dec(c[i]), if i == 0 then iv else c[i - 1])
    decreases i
  {
    hide Xor;
    if i > 0 {
      DecryptedAt(n, dec, c[0], c[1..], i - 1);
    }
  }

  // ------------------------------------------------------------------ the four loops

  lemma Prefix(n: nat, blocks: seq<Block>, k: nat)
    requires AllSized(n, blocks) && k <= |blocks|
    ensures AllSized(n, blocks[..k]) && AllSized(n, blocks[k..])
  {
  }

  lemma EncryptedSnoc(n: nat, enc: Block -> Block, iv: Block, p: seq<Block>, k: nat)
    requires Sized(n, enc) && |iv| == n && AllSized(n, p) && k < |p|
    ensures AllSized(n, p[..k]) && AllSized(n, p[..k + 1])
    ensures var c := Encrypted(n, enc, iv, p[..k]);
            |Carried(iv, c)| == n && Encrypted(n, enc, iv, p[..k + 1]) == c + [enc(Xor(p[k], Carried(iv, c)))]
  {
    EncryptInChunks(n, enc, iv, p[..k], [p[k]]);
    assert p[..k + 1] == p[..k] + [p[k]];
    var v := Carried(iv, Encrypted(n, enc, iv, p[..k]));
    assert [p[k]][1..] == [];
    assert Encrypted(n, enc, v, [p[k]]) == [enc(Xor(p[k], v))] + Encrypted(n, enc, enc(Xor(p[k], v)), []);
  }

  /** crypto_cbc_encrypt_segment. */
  method EncryptSegment(n: nat, enc: Block -> Block, src: array<Block>, dst: array<Block>, iv: Block) returns (carry: Block)
    requires Sized(n, enc) && |iv| == n && AllSized(n, src[..]) && src.Length > 0
    requires src != dst && dst.Length == src.Length
    modifies dst
    ensures dst[..] == Encrypted(n, enc, iv, src[..])
    ensures carry == Carried(iv, dst[..])
  {
    var i := 0;
    carry := iv;
    Prefix(n, src[..], 0);
    while i < src.Length
      invariant i <= src.Length && AllSized(n, src[..i]) && |carry| == n
      invariant dst[..i] == Encrypted(n, enc, iv, src[..i]) && carry == Carried(iv, dst[..i])
    {
      EncryptedSnoc(n, enc, iv, src[..], i);
      assert src[..][..i] == src[..i] && src[..][..i + 1] == src[..i + 1];
      carry := Xor(carry, src[i]);
      XorSwaps(src[i], Carried(iv, dst[..i]));
      dst[i] := enc(carry);
      carry := dst[i];
      i := i + 1;
      assert dst[..i] == dst[..i - 1] + [carry];
    }
    assert dst[..i] == dst[..] && src[..i] == src[..];
  }

  /** crypto_cbc_encrypt_inplace. */
  method EncryptInplace(n: nat, enc: Block -> Block, buf: array<Block>, iv: Block) returns (carry: Block)
    requires Sized(n, enc) && |iv| == n && AllSized(n, buf[..]) && buf.Length > 0
    modifies buf
    ensures AllSized(n, old(buf[..])) && buf[..] == Encrypted(n, enc, iv, old(buf[..]))
    ensures carry == Carried(iv, buf[..])
  {
    ghost var p := buf[..];
    var i := 0;
    carry := iv;
    Prefix(n, p, 0);
    while i < buf.Length
      invariant i <= buf.Length && AllSized(n, p[..i]) && |carry| == n
      invariant buf[i..] == p[i..]
      invariant buf[..i] == Encrypted(n, enc, iv, p[..i]) && carry == Carried(iv, buf[..i])
    {
      EncryptedSnoc(n, enc, iv, p, i);
      assert buf[i] == buf[i..][0] == p[i];
      buf[i] := Xor(buf[i], carry);
      buf[i] := enc(buf[i]);
      carry := buf[i];
      i := i + 1;
      assert buf[..i] == buf[..i - 1] + [carry];
    }
    assert buf[..i] == buf[..] && p[..i] == p;
  }

  /** crypto_cbc_decrypt_segment. */
  method DecryptSegment(n: nat, dec: Block -> Block, src: array<Block>, dst: array<Block>, iv: Block) returns (carry: Block)
    requires Sized(n, dec) && |iv| == n && AllSized(n, src[..]) && src.Length > 0
    requires src != dst && dst.Length == src.Length
    modifies dst
    ensures dst[..] == Decrypted(n, dec, iv, src[..])
    ensures carry == Carried(iv, src[..])
  {
    var i := 0;
    carry := iv;
    while i < src.Length
      invariant i <= src.Length && carry == (if i == 0 then iv else src[i - 1]) && |carry| == n
      invariant forall j | 0 <= j < i :: dst[j] == Decrypted(n, dec, iv, src[..])[j]
    {
      DecryptedAt(n, dec, iv, src[..], i);
      dst[i] := dec(src[i]);
      dst[i] := Xor(dst[i], carry);
      carry := src[i];
      i := i + 1;
    }
  }

  /** crypto_cbc_decrypt_inplace, from the last block back to the first. */
  method DecryptInplace(n: nat, dec: Block -> Block, buf: array<Block>, iv: Block) returns (carry: Block)
    requires Sized(n, dec) && |iv| == n && AllSized(n, buf[..]) && buf.Length > 0
    modifies buf
    ensures AllSized(n, old(buf[..])) && buf[..] == Decrypted(n, dec, iv, old(buf[..]))
    ensures carry == Carried(iv, old(buf[..]))
  {
    hide Xor, Decrypted;
    ghost var c := buf[..];
    ghost var p := Decrypted(n, dec, iv, c);
    var i := buf.Length - 1;
    carry := buf[i];
    while true
      invariant 0 <= i < buf.Length && (forall j | 0 <= j <= i :: buf[j] == c[j]) && carry == c[buf.Length - 1]
      invariant forall j | i < j < buf.Length :: buf[j] == p[j]
      decreases i
    {
      DecryptedAt(n, dec, iv, c, i);
      buf[i] := dec(buf[i]);
      if i < 1 {
        break;
      }
      buf[i] := Xor(buf[i], buf[i - 1]);
      i := i - 1;
    }
    buf[0] := Xor(buf[0], iv);
    assert buf[..] == p;
  }
}
