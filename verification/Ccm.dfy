/**
 The authentication half of CCM (crypto/ccm.c): formatting of the control block and of the
 associated data length, and the streaming CBC-MAC, against section 2.2 of RFC 3610.
 */
module Ccm {

  type Byte = x: nat | x < 256

  const BS := 16
  const EOVERFLOW: int := -75

  // ---------------------------------------------------------------- big-endian fields

  function Pow256(k: nat): (r: nat)
    ensures r > 0
  {
    if k == 0 then 1 else 256 * Pow256(k - 1)
  }

  /** The low k bytes of n, the most significant first. */
  function Be(n: nat, k: nat): (r: seq<Byte>)
    ensures |r| == k
  {
    if k == 0 then [] else Be(n / 256, k - 1) + [n % 256]
  }

  function FromBe(s: seq<Byte>): nat {
    if s == [] then 0 else FromBe(s[..|s| - 1]) * 256 + s[|s| - 1]
  }

  lemma {:induction false} BeInverse(n: nat, k: nat)
    requires n < Pow256(k)
    ensures FromBe(Be(n, k)) == n
  {
    if k > 0 {
      BeInverse(n / 256, k - 1);
      var r := Be(n, k);
      assert r[..k - 1] == Be(n / 256, k - 1) && r[k - 1] == n % 256;
    }
  }

  /** The last k bytes of a longer field are the k-byte field. */
  lemma {:induction false} BeTail(n: nat, j: nat, k: nat)
    requires k <= j
    ensures Be(n, j)[j - k..] == Be(n, k)
  {
    if k > 0 {
      BeTail(n / 256, j - 1, k - 1);
      assert Be(n, j)[j - k..] == Be(n / 256, j - 1)[j - k..] + [n % 256];
    }
  }

  function Zeros(n: nat): (r: seq<Byte>)
    ensures |r| == n && forall i | 0 <= i < n :: r[i] == 0
  {
    seq(n, _ => 0)
  }

  lemma {:induction false} BeZero(k: nat)
    ensures Be(0, k) == Zeros(k)
  {
    if k > 0 {
      BeZero(k - 1);
    }
  }

  /** A small number in a wide field: leading zeros. */
  lemma {:induction false} BePadded(n: nat, j: nat, k: nat)
    requires n < Pow256(k)
    ensures Be(n, j + k) == Zeros(j) + Be(n, k)
  {
    if k == 0 {
      BeZero(j);
    } else {
      BePadded(n / 256, j, k - 1);
    }
  }

  // --------------------------------------------------------------- the MAC of blocks

  type Block = s: seq<Byte> | |s| == 16 witness seq(16, _ => 0)

  function Pow2(k: nat): (r: nat)
    ensures r > 0
  {
    if k == 0 then 1 else 2 * Pow2(k - 1)
  }

  /** The exclusive or of the lowest k bits. */
  function XorBits(x: nat, y: nat, k: nat): (r: nat)
    ensures r < Pow2(k)
  {
    if k == 0 then 0 else 2 * XorBits(x / 2, y / 2, k - 1) + (x + y) % 2
  }

  function ByteXor(x: Byte, y: Byte): Byte {
    assert Pow2(8) == 256 by {
      assert Pow2(4) == 16 && Pow2(8) == 16 * Pow2(4);
    }
    XorBits(x, y, 8)
  }

  function Xor(a: Block, b: Block): Block {
    seq(16, i requires 0 <= i < 16 => ByteXor(a[i], b[i]))
  }

  lemma Halves(h: nat, b: nat)
    requires b < 2
    ensures (2 * h + b) / 2 == h && (2 * h + b) % 2 == b
  {
  }

  lemma Parity(x: nat, y: nat, z: nat)
    requires z % 2 == (x + y) % 2
    ensures (z + y) % 2 == x % 2
  {
  }

  lemma {:induction false} XorBitsTwice(x: nat, y: nat, k: nat)
    requires x < Pow2(k)
    ensures XorBits(XorBits(x, y, k), y, k) == x
  {
    if k > 0 {
      var z, h := XorBits(x, y, k), XorBits(x / 2, y / 2, k - 1);
      Halves(h, (x + y) % 2);
      Parity(x, y, z);
      XorBitsTwice(x / 2, y / 2, k - 1);
      assert XorBits(z, y, k) == 2 * XorBits(z / 2, y / 2, k - 1) + (z + y) % 2;
    }
  }

  lemma {:induction false} XorBitsZero(x: nat, k: nat)
    requires x < Pow2(k)
    ensures XorBits(x, 0, k) == x
  {
    if k > 0 {
      XorBitsZero(x / 2, k - 1);
    }
  }

  lemma {:induction false} XorBitsSwap(x: nat, y: nat, k: nat)
    ensures XorBits(x, y, k) == XorBits(y, x, k)
  {
    if k > 0 {
      XorBitsSwap(x / 2, y / 2, k - 1);
    }
  }

  /** The exclusive or of blocks undoes itself, does not care for the order, and zeros leave a block as it is. */
  lemma XorLaws(a: Block, b: Block)
    ensures Xor(Xor(a, b), b) == a && Xor(a, b) == Xor(b, a) && Xor(a, Zeros(16)) == a
  {
    assert Pow2(8) == 256 by {
      assert Pow2(4) == 16 && Pow2(8) == 16 * Pow2(4);
    }
    forall i | 0 <= i < 16
      ensures ByteXor(ByteXor(a[i], b[i]), b[i]) == a[i] && ByteXor(a[i], b[i]) == ByteXor(b[i], a[i]) && ByteXor(a[i], 0) == a[i]
    {
      XorBitsTwice(a[i], b[i], 8);
      XorBitsZero(a[i], 8);
      XorBitsSwap(a[i], b[i], 8);
    }
    hide ByteXor;
  }

  /** One round: xor the block into the state and encrypt. */
  function Round(enc: Block -> Block, o: Block, b: Block): Block {
    enc(Xor(o, b))
  }

  /** CBC-MAC from state o. */
  function Mac(enc: Block -> Block, o: Block, blocks: seq<Block>): Block
    decreases |blocks|
  {
    if blocks == [] then o else Mac(enc, Round(enc, o, blocks[0]), blocks[1..])
  }

  /** A byte string zero-padded to whole blocks. */
  function Blocks(s: seq<Byte>): (r: seq<Block>)
    decreases |s|
  {
    if s == [] then [] else if |s| <= 16 then [s + Zeros(16 - |s|)] else [s[..16]] + Blocks(s[16..])
  }

  lemma {:induction false} MacAppend(enc: Block -> Block, o: Block, a: seq<Block>, b: seq<Block>)
    ensures Mac(enc, o, a + b) == Mac(enc, Mac(enc, o, a), b)
    decreases |a|
  {
    if a == [] {
      assert a + b == b;
    } else {
      MacAppend(enc, Round(enc, o, a[0]), a[1..], b);
      assert (a + b)[1..] == a[1..] + b;
    }
  }

  // ------------------------------------------------------------------- streaming

  /** The state after absorbing s: the MAC of its whole blocks, and the bytes left over. */
  function Absorb(enc: Block -> Block, o: Block, s: seq<Byte>): (r: (Block, seq<Byte>))
    ensures |r.1| < 16
    decreases |s|
  {
    if |s| < 16 then (o, s) else Absorb(enc, Round(enc, o, s[..16]), s[16..])
  }

  /** Absorbing in two parts is absorbing the whole. */
  lemma {:induction false} AbsorbAppend(enc: Block -> Block, o: Block, a: seq<Byte>, b: seq<Byte>)
    ensures var (o1, rest) := Absorb(enc, o, a); Absorb(enc, o, a + b) == Absorb(enc, o1, rest + b)
    decreases |a|
  {
    if |a| >= 16 {
      AbsorbAppend(enc, Round(enc, o, a[..16]), a[16..], b);
      assert (a + b)[..16] == a[..16] && (a + b)[16..] == a[16..] + b;
    }
  }

  lemma AbsorbBlock(enc: Block -> Block, o: Block, b: Block, s: seq<Byte>)
    ensures Absorb(enc, o, b + s) == Absorb(enc, Round(enc, o, b), s)
  {
    assert (b + s)[..16] == b && (b + s)[16..] == s;
  }

  /** What is left over is padded and absorbed. */
  function Flush(enc: Block -> Block, o: Block, rest: seq<Byte>): Block
    requires |rest| < 16
  {
    if rest == [] then o else Round(enc, o, rest + Zeros(16 - |rest|))
  }

  /** Absorbing and flushing is the MAC of the padded blocks. */
  lemma {:induction false} FlushedIsMac(enc: Block -> Block, o: Block, s: seq<Byte>)
    ensures var (o1, rest) := Absorb(enc, o, s); Flush(enc, o1, rest) == Mac(enc, o, Blocks(s))
    decreases |s|
  {
    hide Xor, Zeros;
    if |s| < 16 {
      assert s != [] ==> Blocks(s)[1..] == [];
    } else {
      FlushedIsMac(enc, Round(enc, o, s[..16]), s[16..]);
      if |s| == 16 {
        assert s + Zeros(0) == s && s[..16] == s && s[16..] == [];
        assert Blocks(s) == [s] && Blocks(s)[1..] == [];
      } else {
        assert Blocks(s)[0] == s[..16] && Blocks(s)[1..] == Blocks(s[16..]);
      }
    }
  }

  // ---------------------------------------------------------------------- formatting

  /** L' is 1 to 7, the tag is 4, 6, ... or 16 bytes long, and the nonce fills the block. */
  predicate ParamsOk(lp: nat, m: nat, nonce: seq<Byte>) {
    1 <= lp <= 7 && 4 <= m <= 16 && m % 2 == 0 && |nonce| == 14 - lp
  }

  /** The flags byte; its three fields do not overlap, so or is sum. */
  function Flags(lp: nat, m: nat, hasAdata: bool): Byte
    requires 1 <= lp <= 7 && 4 <= m <= 16
  {
    lp + 8 * ((m - 2) / 2) + if hasAdata then 64 else 0
  }

  /** B_0. */
  function FirstBlock(lp: nat, m: nat, nonce: seq<Byte>, hasAdata: bool, length: nat): Block
    requires ParamsOk(lp, m, nonce)
  {
    [Flags(lp, m, hasAdata)] + nonce + Be(length, lp + 1)
  }

  /** How the length of the associated data is written, for lengths of 32 bits. */
  function LengthPrefix(a: nat): seq<Byte> {
    if a < 65280 then Be(a, 2) else Be(0xfffe, 2) + Be(a, 4)
  }

  function AdataBlocks(adata: seq<Byte>): seq<Block> {
    if adata == [] then [] else Blocks(LengthPrefix(|adata|) + adata)
  }

  /** All the blocks to authenticate: B_0, associated data, message. */
  function Format(lp: nat, m: nat, nonce: seq<Byte>, adata: seq<Byte>, msg: seq<Byte>): seq<Block>
    requires ParamsOk(lp, m, nonce)
  {
    [FirstBlock(lp, m, nonce, adata != [], |msg|)] + AdataBlocks(adata) + Blocks(msg)
  }

  /** CBC-MAC of a whole sequence: the first block is encrypted as it is. */
  function CbcMac(enc: Block -> Block, blocks: seq<Block>): Block
    requires blocks != []
  {
    Mac(enc, enc(blocks[0]), blocks[1..])
  }

  // ------------------------------------------------------ the formatting is injective

  function NrBlocks(n: nat): nat {
    (n + 15) / 16
  }

  lemma {:induction false} BlocksCount(s: seq<Byte>)
    ensures |Blocks(s)| == NrBlocks(|s|)
    decreases |s|
  {
    if |s| > 16 {
      BlocksCount(s[16..]);
    }
  }

  function Flat(blocks: seq<Block>): seq<Byte> {
    if blocks == [] then [] else blocks[0] + Flat(blocks[1..])
  }

  /** The blocks hold the bytes, and then zeros. */
  lemma {:induction false} BlocksHold(s: seq<Byte>)
    ensures |s| <= |Flat(Blocks(s))| < |s| + 16 && Flat(Blocks(s))[..|s|] == s
    ensures forall i | |s| <= i < |Flat(Blocks(s))| :: Flat(Blocks(s))[i] == 0
    decreases |s|
  {
    if |s| > 16 {
      BlocksHold(s[16..]);
      assert Blocks(s)[0] == s[..16] && Blocks(s)[1..] == Blocks(s[16..]);
      assert s == s[..16] + s[16..];
    } else if s != [] {
      assert Blocks(s)[1..] == [];
      assert Flat(Blocks(s)) == s + Zeros(16 - |s|);
    }
  }

  /** Equal blocks of equally long strings: equal strings. */
  lemma BlocksInjective(s: seq<Byte>, t: seq<Byte>)
    requires Blocks(s) == Blocks(t) && |s| == |t|
    ensures s == t
  {
    BlocksHold(s);
    BlocksHold(t);
  }

  lemma FlagsInjective(lp: nat, m: nat, a: bool, lp': nat, m': nat, a': bool)
    requires 1 <= lp <= 7 && 4 <= m <= 16 && m % 2 == 0 && 1 <= lp' <= 7 && 4 <= m' <= 16 && m' % 2 == 0
    requires Flags(lp, m, a) == Flags(lp', m', a')
    ensures lp == lp' && m == m' && a == a'
  {
  }

  /** B_0 tells L, the tag size, the nonce, whether there is associated data, and the length field. */
  lemma FirstBlockInjective(lp: nat, m: nat, n: seq<Byte>, a: bool, l: nat, lp': nat, m': nat, n': seq<Byte>, a': bool, l': nat)
    requires ParamsOk(lp, m, n) && ParamsOk(lp', m', n')
    requires FirstBlock(lp, m, n, a, l) == FirstBlock(lp', m', n', a', l')
    ensures lp == lp' && m == m' && n == n' && a == a' && Be(l, lp + 1) == Be(l', lp + 1)
  {
    hide Flags, Be, Pow256;
    var b, b' := FirstBlock(lp, m, n, a, l), FirstBlock(lp', m', n', a', l');
    assert b[0] == Flags(lp, m, a) && b'[0] == Flags(lp', m', a');
    FlagsInjective(lp, m, a, lp', m', a');
    assert b[1..15 - lp] == n && b'[1..15 - lp] == n';
    assert b[15 - lp..] == Be(l, lp + 1) && b'[15 - lp..] == Be(l', lp + 1);
  }

  /** B_0 field by field: L - 1, (M - 2) / 2 and the Adata bit in the flags, the nonce, and the length of the message. */
  lemma FirstBlockFields(lp: nat, m: nat, n: seq<Byte>, a: bool, l: nat)
    requires ParamsOk(lp, m, n) && l < Pow256(lp + 1)
    ensures var b := FirstBlock(lp, m, n, a, l);
            && b[0] % 8 == lp && b[0] / 8 % 8 == (m - 2) / 2 && b[0] / 64 == (if a then 1 else 0)
            && b[1..15 - lp] == n && FromBe(b[15 - lp..]) == l
  {
    hide Be, Pow256, FromBe;
    BeInverse(l, lp + 1);
    assert FirstBlock(lp, m, n, a, l)[15 - lp..] == Be(l, lp + 1);
  }

  lemma PrefixLength(a: nat)
    requires a < 0x1_0000_0000
    ensures |LengthPrefix(a)| == if a < 65280 then 2 else 6
    ensures FromBe(LengthPrefix(a)[..2]) == if a < 65280 then a else 0xfffe
    ensures a >= 65280 ==> FromBe(LengthPrefix(a)[2..6]) == a
  {
    assert Pow256(2) == 65536 && Pow256(4) == 0x1_0000_0000 by {
      assert Pow256(1) == 256 && Pow256(3) == 256 * Pow256(2);
    }
    if a < 65280 {
      BeInverse(a, 2);
    } else {
      BeInverse(0xfffe, 2);
      BeInverse(a, 4);
      assert LengthPrefix(a)[..2] == Be(0xfffe, 2) && LengthPrefix(a)[2..6] == Be(a, 4);
    }
  }

  /** Strings that start with their own length prefix: the longer cannot start with the blocks of the shorter. */
  lemma PrefixTellsLength(a: seq<Byte>, b: seq<Byte>)
    requires a != [] && b != [] && |a| < 0x1_0000_0000 && |b| < 0x1_0000_0000
    requires var s, t := LengthPrefix(|a|) + a, LengthPrefix(|b|) + b; Blocks(s)[0] == Blocks(t)[0]
    ensures |a| == |b|
  {
    PrefixLength(|a|);
    PrefixLength(|b|);
    FirstBlockStarts(LengthPrefix(|a|), a);
    FirstBlockStarts(LengthPrefix(|b|), b);
    hide Blocks, LengthPrefix, FromBe;
  }

  lemma FirstBlockStarts(p: seq<Byte>, a: seq<Byte>)
    requires 2 <= |p| <= 6 && a != []
    ensures Blocks(p + a) != [] && Blocks(p + a)[0][..2] == p[..2]
    ensures |p| == 6 ==> Blocks(p + a)[0][2..6] == p[2..6]
  {
    var s := p + a;
    assert Blocks(s)[0] == if |s| <= 16 then s + Zeros(16 - |s|) else s[..16];
  }

  lemma {:induction false} BeWraps(k: nat)
    ensures Be(Pow256(k), k) == Be(0, k)
  {
    if k > 0 {
      BeWraps(k - 1);
      assert Pow256(k) / 256 == Pow256(k - 1) && Pow256(k) % 256 == 0;
    }
  }

  /** The test in set_msg_len. */
  predicate LengthRefused(msglen: nat, csize: nat) {
    csize < 4 && msglen > Pow256(csize)
  }

  /** It lets a length of exactly 256^L pass, and then the empty message's blocks begin the long one's. */
  lemma WrappedLengthCollides(lp: nat, m: nat, n: seq<Byte>, a: seq<Byte>, p: seq<Byte>)
    requires ParamsOk(lp, m, n) && |p| == Pow256(lp + 1)
    ensures !LengthRefused(|p|, lp + 1)
    ensures p != [] && Format(lp, m, n, a, []) <= Format(lp, m, n, a, p)
  {
    BeWraps(lp + 1);
    assert Blocks([]) == [];
    hide Be, Pow256;
  }

  /** Accepted lengths of 32 bits are told apart exactly if none is 256^L. */
  lemma LengthFieldExact(l: nat, l': nat, csize: nat)
    requires 2 <= csize <= 8 && l < 0x1_0000_0000 && l' < 0x1_0000_0000
    requires !LengthRefused(l, csize) && !LengthRefused(l', csize) && l != l'
    ensures Be(l, csize) == Be(l', csize) <==> (csize < 4 && ((l == Pow256(csize) && l' == 0) || (l == 0 && l' == Pow256(csize))))
  {
    assert Pow256(2) == 65536 && Pow256(3) == 0x100_0000 && Pow256(4) == 0x1_0000_0000 by {
      assert Pow256(1) == 256;
    }
    PowGrows(4, csize);
    BeWraps(csize);
    if l < Pow256(csize) {
      BeInverse(l, csize);
    }
    if l' < Pow256(csize) {
      BeInverse(l', csize);
    }
    BeInverse(0, csize);
  }

  /** What set_msg_len and the 32 bits of the lengths admit. */
  predicate Accepted(lp: nat, m: nat, n: seq<Byte>, a: seq<Byte>, p: seq<Byte>) {
    ParamsOk(lp, m, n) && |a| < 0x1_0000_0000 && |p| < 0x1_0000_0000 && !LengthRefused(|p|, lp + 1)
  }

  /** Behind equal first blocks: if one sequence begins the other, the associated data is the same. */
  lemma SameAdata(b: Block, a: seq<Byte>, y: seq<Block>, a': seq<Byte>, y': seq<Block>)
    requires (a == []) == (a' == []) && |a| < 0x1_0000_0000 && |a'| < 0x1_0000_0000
    requires [b] + AdataBlocks(a) + y <= [b] + AdataBlocks(a') + y'
    ensures a == a' && y <= y'
  {
    var f, f' := [b] + AdataBlocks(a) + y, [b] + AdataBlocks(a') + y';
    var x, x' := AdataBlocks(a), AdataBlocks(a');
    hide Blocks;
    if a != [] {
      BlocksCount(LengthPrefix(|a|) + a);
      BlocksCount(LengthPrefix(|a'|) + a');
      assert f[1] == x[0] && f'[1] == x'[0];
      PrefixTellsLength(a, a');
      assert x == f[1..1 + |x|] == f'[1..1 + |x'|] == x';
      BlocksInjective(LengthPrefix(|a|) + a, LengthPrefix(|a'|) + a');
      assert (LengthPrefix(|a|) + a)[|LengthPrefix(|a|)|..] == a;
      assert (LengthPrefix(|a'|) + a')[|LengthPrefix(|a'|)|..] == a';
    }
    assert y == f[1 + |x|..] && y' == f'[1 + |x'|..];
  }

  /** Blocks that begin others, of strings whose length fields agree. */
  lemma SameMessage(p: seq<Byte>, p': seq<Byte>, csize: nat)
    requires 2 <= csize <= 8 && |p| < 0x1_0000_0000 && |p'| < 0x1_0000_0000
    requires !LengthRefused(|p|, csize) && !LengthRefused(|p'|, csize)
    requires Be(|p|, csize) == Be(|p'|, csize) && Blocks(p) <= Blocks(p')
    ensures p == p' || (p == [] && csize < 4 && |p'| == Pow256(csize))
  {
    hide Be, Pow256, Blocks;
    BlocksCount(p);
    BlocksCount(p');
    if |p| != |p'| {
      LengthFieldExact(|p|, |p'|, csize);
    } else {
      BlocksInjective(p, p');
    }
  }

  /**
   Over all accepted inputs: the blocks of one begin those of another exactly if they are the same input,
   or differ only in that the one message is empty and the other of the length that its field wraps at.
   */
  lemma FormatIsPrefixFree(lp: nat, m: nat, n: seq<Byte>, a: seq<Byte>, p: seq<Byte>,
                           lp': nat, m': nat, n': seq<Byte>, a': seq<Byte>, p': seq<Byte>)
    requires Accepted(lp, m, n, a, p) && Accepted(lp', m', n', a', p')
    ensures Format(lp, m, n, a, p) <= Format(lp', m', n', a', p') <==>
            && lp == lp' && m == m' && n == n' && a == a'
            && (p == p' || (p == [] && lp < 3 && |p'| == Pow256(lp + 1)))
  {
    hide FirstBlock, Pow256, Be, Blocks, AdataBlocks;
    var f, f' := Format(lp, m, n, a, p), Format(lp', m', n', a', p');
    if f <= f' {
      assert f[0] == f'[0];
      FirstBlockInjective(lp, m, n, a != [], |p|, lp', m', n', a' != [], |p'|);
      SameAdata(f[0], a, Blocks(p), a', Blocks(p'));
      SameMessage(p, p', lp + 1);
    }
    if lp == lp' && m == m' && n == n' && a == a' && p == [] && |p'| == Pow256(lp + 1) {
      WrappedLengthCollides(lp, m, n, a, p');
    }
  }

  lemma {:induction false} PowGrows(j: nat, k: nat)
    ensures j <= k ==> Pow256(j) <= Pow256(k)
    decreases k
  {
    if j < k {
      PowGrows(j, k - 1);
    }
  }

  // ------------------------------------------------------------------------- in place

  /** memcpy and memset: data goes to info from off on, the rest stays. */
  method Write(info: array<Byte>, off: nat, data: seq<Byte>)
    requires off + |data| <= info.Length
    modifies info
    ensures info[..] == old(info[..off]) + data + old(info[off + |data|..])
  {
    ghost var was := info[..];
    for i := 0 to |data|
      invariant forall j | 0 <= j < info.Length :: info[j] == if off <= j < off + i then data[j - off] else was[j]
    {
      info[off + i] := data[i];
    }
  }

  /** set_msg_len on the last csize bytes of a block. */
  method SetMsgLen(info: array<Byte>, msglen: nat, csize: nat) returns (err: int)
    requires info.Length == 16 && 2 <= csize <= 8 && msglen < 0x1_0000_0000
    modifies info
    ensures err == if LengthRefused(msglen, csize) then EOVERFLOW else 0
    ensures info[..16 - csize] == old(info[..16 - csize])
    ensures err == 0 ==> info[16 - csize..] == Be(msglen, csize)
  {
    hide Be, Pow256, Zeros;
    ghost var head := info[..16 - csize];
    Write(info, 16 - csize, Zeros(csize));
    assert info[..] == head + Zeros(csize);
    var size := csize;
    if size >= 4 {
      size := 4;
    } else if msglen > Pow256(size) {
      return EOVERFLOW;
    }
    var data := Be(msglen, 4);
    Overwritten(head, csize, size, data[4 - size..]);
    Write(info, 16 - size, data[4 - size..]);
    LengthWritten(msglen, csize, size);
    assert info[..] == head + (Zeros(csize - size) + data[4 - size..]);
    err := 0;
  }

  lemma Overwritten(head: seq<Byte>, n: nat, k: nat, data: seq<Byte>)
    requires |data| == k <= n && |head| + n == 16
    ensures var was := head + Zeros(n); was[..16 - k] + data + was[16..] == head + (Zeros(n - k) + data)
  {
  }

  lemma LengthWritten(msglen: nat, csize: nat, size: nat)
    requires 2 <= csize <= 8 && msglen < 0x1_0000_0000 && size == if csize >= 4 then 4 else csize
    ensures Be(msglen, csize) == Zeros(csize - size) + Be(msglen, 4)[4 - size..]
  {
    BeTail(msglen, 4, size);
    if csize >= 4 {
      assert Pow256(4) == 0x1_0000_0000 by {
        assert Pow256(1) == 256 && Pow256(3) == 256 * Pow256(2);
      }
      BePadded(msglen, csize - 4, 4);
    } else {
      assert Zeros(0) + Be(msglen, 4)[4 - size..] == Be(msglen, 4)[4 - size..];
    }
  }

  /** format_input: B_0 from an IV that holds L' and the nonce. */
  method FormatInput(info: array<Byte>, iv: seq<Byte>, m: nat, assoclen: nat, cryptlen: nat) returns (err: int)
    requires info.Length == 16 && |iv| == 16 && 1 <= iv[0] <= 7 && 4 <= m <= 16 && m % 2 == 0 && cryptlen < 0x1_0000_0000
    modifies info
    ensures err == if LengthRefused(cryptlen, iv[0] + 1) then EOVERFLOW else 0
    ensures err == 0 ==> info[..] == FirstBlock(iv[0], m, iv[1..15 - iv[0]], assoclen > 0, cryptlen)
  {
    var l := iv[0] + 1;
    for i := 0 to 16
      invariant info[..i] == iv[..i]
    {
      info[i] := iv[i];
    }
    info[0] := Flags(iv[0], m, assoclen > 0);
    ghost var head := info[..16 - l];
    assert head == [Flags(iv[0], m, assoclen > 0)] + iv[1..15 - iv[0]];
    err := SetMsgLen(info, cryptlen, l);
    assert info[..] == info[..16 - l] + info[16 - l..];
  }

  function Concat(chunks: seq<seq<Byte>>): seq<Byte> {
    if chunks == [] then [] else chunks[0] + Concat(chunks[1..])
  }

  /** struct crypto_ccm_req_priv_ctx: odata, idata and ilen. */
  class MacState {
    var odata: Block
    const idata: array<Byte>
    var ilen: nat

    ghost predicate Valid()
      reads this
    {
      idata.Length == 16 && ilen < 16
    }

    /** The bytes waiting for a whole block. */
    ghost function Pending(): seq<Byte>
      reads this, idata
      requires Valid()
    {
      idata[..ilen]
    }

    /** memcpy into idata behind what is there. */
    method Fill(data: seq<Byte>)
      requires idata.Length == 16 && ilen + |data| <= 16
      modifies idata
      ensures idata[..ilen + |data|] == old(idata[..ilen]) + data
    {
      Write(idata, ilen, data);
    }

    /** compute_mac. */
    method ComputeMac(enc: Block -> Block, data: seq<Byte>)
      requires Valid()
      modifies this, idata
      ensures Valid() && (odata, Pending()) == Absorb(enc, old(odata), old(Pending()) + data)
    {
      hide Xor, Absorb;
      ghost var s := idata[..ilen] + data;
      var pos, getlen := 0, 16 - ilen;
      if |data| >= getlen {
        Fill(data[..getlen]);
        assert s == idata[..] + data[getlen..] by {
          assert idata[..] == idata[..16];
        }
        AbsorbBlock(enc, odata, idata[..], data[getlen..]);
        odata := Xor(odata, idata[..]);
        odata := enc(odata);
        pos := getlen;
        ilen := 0;
      }
      ghost var rest := idata[..ilen];
      assert rest + data[pos..] == if pos == 0 then s else data[pos..];
      while |data| - pos >= 16
        invariant pos <= |data| && Valid() && idata[..ilen] == rest && (pos > 0 ==> ilen == 0)
        invariant pos == 0 ==> |data| < getlen && ilen + getlen == 16
        invariant Absorb(enc, odata, rest + data[pos..]) == Absorb(enc, old(odata), s)
      {
        var b := data[pos..pos + 16];
        assert rest + data[pos..] == b + data[pos + 16..] && rest + data[pos + 16..] == data[pos + 16..];
        AbsorbBlock(enc, odata, b, data[pos + 16..]);
        odata := Xor(odata, b);
        odata := enc(odata);
        pos := pos + 16;
      }
      ShortStays(enc, odata, rest + data[pos..]);
      if pos < |data| {
        Fill(data[pos..]);
        ilen := ilen + (|data| - pos);
      } else {
        assert rest + data[pos..] == rest;
      }
    }

    /** get_data_to_compute: chunk by chunk, then the padding of what is left over. */
    method GetDataToCompute(enc: Block -> Block, chunks: seq<seq<Byte>>)
      requires Valid()
      modifies this, idata
      ensures Valid() && ilen == 0
      ensures odata == Mac(enc, old(odata), Blocks(old(Pending()) + Concat(chunks)))
    {
      hide Absorb, Xor, Mac, Blocks;
      ghost var s := idata[..ilen];
      var i := 0;
      assert chunks[0..] == chunks;
      while i < |chunks|
        invariant i <= |chunks| && Valid()
        invariant Absorb(enc, odata, Pending() + Concat(chunks[i..])) == Absorb(enc, old(odata), s + Concat(chunks))
      {
        ghost var o, rest, tail := odata, Pending(), Concat(chunks[i + 1..]);
        assert chunks[i..][1..] == chunks[i + 1..];
        ComputeMac(enc, chunks[i]);
        AbsorbAppend(enc, o, rest + chunks[i], tail);
        assert rest + chunks[i] + tail == rest + (chunks[i] + tail);
        i := i + 1;
      }
      assert chunks[i..] == [] && Pending() + Concat([]) == Pending();
      ShortStays(enc, odata, Pending());
      FlushedIsMac(enc, old(odata), s + Concat(chunks));
      if ilen > 0 {
        ghost var rest := idata[..ilen];
        Fill(Zeros(16 - ilen));
        assert idata[..] == rest + Zeros(16 - ilen);
        odata := Xor(odata, idata[..]);
        odata := enc(odata);
        ilen := 0;
      }
    }

    /** format_adata. */
    method FormatAdata(a: nat)
      requires idata.Length == 16 && a < 0x1_0000_0000
      modifies this`ilen, idata
      ensures Valid() && Pending() == LengthPrefix(a)
    {
      if a < 65280 {
        Write(idata, 0, Be(a, 2));
        ilen := 2;
      } else {
        Write(idata, 0, Be(0xfffe, 2));
        ghost var first := idata[..2];
        Write(idata, 2, Be(a, 4));
        ilen := 6;
        assert idata[..6] == first + Be(a, 4);
      }
    }

    /** crypto_ccm_auth: for every way the data is cut, odata is the CBC-MAC of the formatted blocks. */
    method Auth(enc: Block -> Block, iv: seq<Byte>, m: nat, assoc: seq<seq<Byte>>, plain: seq<seq<Byte>>) returns (err: int)
      requires idata.Length == 16 && |iv| == 16 && 1 <= iv[0] <= 7 && 4 <= m <= 16 && m % 2 == 0
      requires |Concat(assoc)| < 0x1_0000_0000 && |Concat(plain)| < 0x1_0000_0000
      modifies this, idata
      ensures err == if LengthRefused(|Concat(plain)|, iv[0] + 1) then EOVERFLOW else 0
      ensures err == 0 ==>
                odata == CbcMac(enc, Format(iv[0], m, iv[1..15 - iv[0]], Concat(assoc), Concat(plain)))
    {
      hide Mac, Blocks, FirstBlock, LengthPrefix;
      var assoclen, cryptlen := |Concat(assoc)|, |Concat(plain)|;
      var info := new Byte[16](_ => 0);
      err := FormatInput(info, iv, m, assoclen, cryptlen);
      if err != 0 {
        return;
      }
      ghost var b0 := FirstBlock(iv[0], m, iv[1..15 - iv[0]], assoclen > 0, cryptlen);
      odata := info[..];
      odata := enc(odata);
      if assoclen > 0 {
        FormatAdata(assoclen);
        GetDataToCompute(enc, assoc);
      } else {
        ilen := 0;
      }
      assert odata == Mac(enc, enc(b0), AdataBlocks(Concat(assoc))) by {
        MacNothing(enc, enc(b0));
      }
      assert idata[..0] == [] && [] + Concat(plain) == Concat(plain);
      GetDataToCompute(enc, plain);
      MacAppend(enc, enc(b0), AdataBlocks(Concat(assoc)), Blocks(Concat(plain)));
      ghost var f := Format(iv[0], m, iv[1..15 - iv[0]], Concat(assoc), Concat(plain));
      assert f[0] == b0 && f[1..] == AdataBlocks(Concat(assoc)) + Blocks(Concat(plain));
    }
  }

  lemma ShortStays(enc: Block -> Block, o: Block, s: seq<Byte>)
    requires |s| < 16
    ensures Absorb(enc, o, s) == (o, s)
  {
  }

  lemma MacNothing(enc: Block -> Block, o: Block)
    ensures Mac(enc, o, []) == o
  {
  }
}
