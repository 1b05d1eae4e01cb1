/**
 The Camellia cipher as crypto/camellia.c computes it, against the plain cipher
 of sections 2.3 and 2.4 of RFC 3713.

 A 64-bit half of the block, and a 64-bit subkey, is the pair (xxxL, xxxR) of the
 source; an array of pairs stands for the two arrays subL and subR, for the
 interleaved array behind SUBKEY_L and SUBKEY_R, and for io[0..4].  The four
 tables are parameters; all that is asked of them is that they are made of S-boxes
 as their names say.
 */
module Camellia {
  import W = Words

  datatype Half = Half(l: bv32, r: bv32)

  datatype Block = Block(d1: Half, d2: Half)

  /** The tables camellia_sp1110, camellia_sp0222, camellia_sp3033, camellia_sp4404. */
  datatype Tables = Tables(sp1110: bv8 -> bv32, sp0222: bv8 -> bv32, sp3033: bv8 -> bv32, sp4404: bv8 -> bv32)

  function Xor(a: Half, b: Half): Half {
    Half(W.Xor(a.l, b.l), W.Xor(a.r, b.r))
  }

  function Byte(x: bv32, shift: nat): bv8
    requires shift <= 24
  {
    ((x >> shift) & 0xFF) as bv8
  }

  // ---------------------------------------------------------------- F-function

  function XorAll(a: bv32, b: bv32, c: bv32, d: bv32): bv32 {
    W.Xor(W.Xor(W.Xor(a, b), c), d)
  }

  /** The S-box layer, as looked up before the two words are mixed. */
  function Substitute(t: Tables, x: Half): Half {
    Half(
      XorAll(t.sp1110(Byte(x.r, 0)), t.sp0222(Byte(x.r, 24)), t.sp3033(Byte(x.r, 16)), t.sp4404(Byte(x.r, 8))),
      XorAll(t.sp1110(Byte(x.l, 24)), t.sp0222(Byte(x.l, 16)), t.sp3033(Byte(x.l, 8)), t.sp4404(Byte(x.l, 0))))
  }

  /** The last half of the P-function. */
  function Mix(y: Half): Half {
    var yl := W.Xor(y.l, y.r);
    Half(yl, W.Xor(W.Ror8(y.r), yl))
  }

  /** CAMELLIA_F: the key goes in before the S-boxes. */
  function CamelliaF(t: Tables, x: Half, k: Half): Half {
    Mix(Substitute(t, Xor(x, k)))
  }

  /** CAMELLIA_ROUNDSM: the key goes in after the S-boxes, before the mixing. */
  function RoundSm(t: Tables, x: Half, k: Half, y: Half): Half {
    var s := Substitute(t, x);
    var il := W.Xor(s.r, k.l);
    var ir := W.Xor(s.l, W.Xor(il, k.r));
    Half(W.Xor(y.l, ir), W.Xor(y.r, W.Xor(W.Ror8(il), ir)))
  }

  /** What the loop at the end of camellia_setup_tail does to one round key. */
  function UnMix(k: Half): Half {
    var dw := W.Rol8(W.Xor(k.l, k.r));
    Half(dw, W.Xor(k.l, dw))
  }

  // ------------------------------------------------------ FL and its inverse

  function FL(x: Half, k: Half): Half {
    var x2 := W.Xor(x.r, W.Rol1(W.And(x.l, k.l)));
    Half(W.Xor(x.l, W.Or(x2, k.r)), x2)
  }

  function FLInv(y: Half, k: Half): Half {
    var y1 := W.Xor(y.l, W.Or(y.r, k.r));
    Half(y1, W.Xor(y.r, W.Rol1(W.And(y1, k.l))))
  }

  /** How a difference in the input of FLInv, or the output of FL, travels. */
  function Carry(w: Half, k: Half): Half {
    var w1 := W.Xor(w.l, W.AndNot(w.r, k.r));
    Half(w1, W.Xor(w.r, W.Rol1(W.And(w1, k.l))))
  }

  // ------------------------------------------- the functions of section 2.4 of RFC 3713

  /** SBOX1 to SBOX4. */
  datatype Boxes = Boxes(s1: bv8 -> bv8, s2: bv8 -> bv8, s3: bv8 -> bv8, s4: bv8 -> bv8)

  /** The bytes of a word, the most significant first. */
  datatype Bytes = Bytes(b1: bv8, b2: bv8, b3: bv8, b4: bv8)

  function Unpack(w: bv32): Bytes {
    Bytes((w >> 24) as bv8, ((w >> 16) & 0xFF) as bv8, ((w >> 8) & 0xFF) as bv8, (w & 0xFF) as bv8)
  }

  lemma UnpackHolds(w: bv32)
    ensures var b := Unpack(w); W.Word(b.b1, b.b2, b.b3, b.b4) == w
  {
  }

  /** A table holds the output of its S-box in three of the four bytes, as the digits of its name say. */
  ghost predicate MadeOf(t: Tables, sb: Boxes) {
    && (forall x :: t.sp1110(x) == W.Word(sb.s1(x), sb.s1(x), sb.s1(x), 0))
    && (forall x :: t.sp0222(x) == W.Word(0, sb.s2(x), sb.s2(x), sb.s2(x)))
    && (forall x :: t.sp3033(x) == W.Word(sb.s3(x), 0, sb.s3(x), sb.s3(x)))
    && (forall x :: t.sp4404(x) == W.Word(sb.s4(x), sb.s4(x), 0, sb.s4(x)))
  }

  /** The F-function, byte by byte. */
  function F(sb: Boxes, x: Half, k: Half): Half {
    var u, v := Unpack(Xor(x, k).l), Unpack(Xor(x, k).r);
    Diffused(sb.s1(u.b1), sb.s2(u.b2), sb.s3(u.b3), sb.s4(u.b4), sb.s2(v.b1), sb.s3(v.b2), sb.s4(v.b3), sb.s1(v.b4))
  }

  /** y1 to y8 of the F-function. */
  function Diffused(t1: bv8, t2: bv8, t3: bv8, t4: bv8, t5: bv8, t6: bv8, t7: bv8, t8: bv8): Half {
    Half(
      W.Word(t1 ^ t3 ^ t4 ^ t6 ^ t7 ^ t8, t1 ^ t2 ^ t4 ^ t5 ^ t7 ^ t8,
             t1 ^ t2 ^ t3 ^ t5 ^ t6 ^ t8, t2 ^ t3 ^ t4 ^ t5 ^ t6 ^ t7),
      W.Word(t1 ^ t2 ^ t6 ^ t7 ^ t8, t2 ^ t3 ^ t5 ^ t7 ^ t8, t3 ^ t4 ^ t5 ^ t6 ^ t8, t1 ^ t4 ^ t5 ^ t6 ^ t7))
  }

  /** a ^ ((b & k) <<< 1) */
  function AndRotated(a: bv32, b: bv32, k: bv32): bv32 {
    a ^ (((b & k) << 1) | ((b & k) >> 31))
  }

  function Ored(a: bv32, b: bv32, k: bv32): bv32 {
    a ^ (b | k)
  }

  /** The FL-function. */
  function PlainFL(x: Half, k: Half): Half {
    var x2 := AndRotated(x.r, x.l, k.l);
    Half(Ored(x.l, x2, k.r), x2)
  }

  /** The FLINV-function. */
  function PlainFLInv(y: Half, k: Half): Half {
    var y1 := Ored(y.l, y.r, k.r);
    Half(y1, AndRotated(y.r, y1, k.l))
  }

  // --------------------------------------------------------- the plain cipher

  predicate IsSchedule(s: seq<Half>, n: nat) {
    n >= 1 && |s| == 8 * n + 2
  }

  /** Six Feistel rounds of group g, keyed before F with subkeys 8g+2 .. 8g+7. */
  function PlainRounds(sb: Boxes, s: seq<Half>, g: nat, b: Block): Block
    requires 8 * g + 7 < |s|
  {
    var d2 := Xor(b.d2, F(sb, b.d1, s[8 * g + 2]));
    var d1 := Xor(b.d1, F(sb, d2, s[8 * g + 3]));
    var d2' := Xor(d2, F(sb, d1, s[8 * g + 4]));
    var d1' := Xor(d1, F(sb, d2', s[8 * g + 5]));
    var d2'' := Xor(d2', F(sb, d1', s[8 * g + 6]));
    var d1'' := Xor(d1', F(sb, d2'', s[8 * g + 7]));
    Block(d1'', d2'')
  }

  function PlainFLLayer(s: seq<Half>, g: nat, b: Block): Block
    requires 8 * g + 1 < |s|
  {
    Block(PlainFL(b.d1, s[8 * g]), PlainFLInv(b.d2, s[8 * g + 1]))
  }

  /** The state after g+1 groups of rounds, an FL layer before each but the first. */
  function PlainGroups(sb: Boxes, s: seq<Half>, g: nat, m: Block): Block
    requires 8 * g + 7 < |s|
  {
    if g == 0 then
      PlainRounds(sb, s, 0, Block(Xor(m.d1, s[0]), Xor(m.d2, s[1])))
    else
      PlainRounds(sb, s, g, PlainFLLayer(s, g, PlainGroups(sb, s, g - 1, m)))
  }

  /** RFC 3713: whitening, n groups of rounds, whitening; the halves leave swapped. */
  function Plain(sb: Boxes, s: seq<Half>, n: nat, m: Block): Block
    requires IsSchedule(s, n)
  {
    var b := PlainGroups(sb, s, n - 1, m);
    Block(Xor(b.d2, s[8 * n]), Xor(b.d1, s[8 * n + 1]))
  }

  // ---------------------------------------------------------- the fast cipher

  function FastRounds(t: Tables, k: seq<Half>, g: nat, b: Block): Block
    requires 8 * g + 7 < |k|
  {
    var d2 := RoundSm(t, b.d1, k[8 * g + 2], b.d2);
    var d1 := RoundSm(t, d2, k[8 * g + 3], b.d1);
    var d2' := RoundSm(t, d1, k[8 * g + 4], d2);
    var d1' := RoundSm(t, d2', k[8 * g + 5], d1);
    var d2'' := RoundSm(t, d1', k[8 * g + 6], d2');
    var d1'' := RoundSm(t, d2'', k[8 * g + 7], d1');
    Block(d1'', d2'')
  }

  function FLLayer(s: seq<Half>, g: nat, b: Block): Block
    requires 8 * g + 1 < |s|
  {
    Block(FL(b.d1, s[8 * g]), FLInv(b.d2, s[8 * g + 1]))
  }

  function FastGroups(t: Tables, k: seq<Half>, g: nat, m: Block): Block
    requires 8 * g + 7 < |k|
  {
    if g == 0 then
      FastRounds(t, k, 0, Block(Xor(m.d1, k[0]), m.d2))
    else
      FastRounds(t, k, g, FLLayer(k, g, FastGroups(t, k, g - 1, m)))
  }

  /** camellia_do_encrypt with max == 8 * n, including the caller's swap of the halves. */
  function FastEncrypt(t: Tables, k: seq<Half>, n: nat, m: Block): Block
    requires n >= 1 && |k| > 8 * n
  {
    var b := FastGroups(t, k, n - 1, m);
    Block(Xor(b.d2, k[8 * n]), b.d1)
  }

  // --------------------------------------- what the absorbed schedule amounts to

  /** The offset the right half carries into group g. */
  function First(s: seq<Half>, g: nat): Half
    requires 8 * g + 1 < |s|
  {
    if g == 0 then s[1] else Carry(s[8 * g - 1], s[8 * g + 1])
  }

  /** The offset the left half must carry out of group g. */
  function Last(s: seq<Half>, n: nat, g: nat): Half
    requires IsSchedule(s, n) && g < n
  {
    if g + 1 == n then s[8 * n + 1] else Carry(s[8 * g + 10], s[8 * g + 8])
  }

  /**
   The subkeys of group g in the fast schedule k.  Each round key takes off its half the
   offset put there by the round before, and puts on the key of the round to come.
   */
  ghost predicate GroupAbsorbed(s: seq<Half>, n: nat, k: seq<Half>, g: nat)
    requires IsSchedule(s, n) && g < n && |k| > 8 * n
  {
    && (g > 0 ==> k[8 * g] == s[8 * g] && k[8 * g + 1] == s[8 * g + 1])
    && k[8 * g + 2] == UnMix(Xor(First(s, g), s[8 * g + 3]))
    && k[8 * g + 3] == UnMix(Xor(s[8 * g + 2], s[8 * g + 4]))
    && k[8 * g + 4] == UnMix(Xor(s[8 * g + 3], s[8 * g + 5]))
    && k[8 * g + 5] == UnMix(Xor(s[8 * g + 4], s[8 * g + 6]))
    && k[8 * g + 6] == UnMix(Xor(s[8 * g + 5], s[8 * g + 7]))
    && k[8 * g + 7] == UnMix(Xor(s[8 * g + 6], Last(s, n, g)))
  }

  /** k is the fast schedule of s; entry 1 is never used. */
  ghost predicate Absorbed(s: seq<Half>, n: nat, k: seq<Half>)
    requires IsSchedule(s, n)
  {
    && |k| > 8 * n
    && k[0] == Xor(s[0], s[2])
    && k[8 * n] == Xor(s[8 * n], s[8 * n - 1])
    && forall g: nat | g < n :: GroupAbsorbed(s, n, k, g)
  }

  // -------------------------------------------------- facts about 64-bit halves

  lemma XorComm(a: Half, b: Half)
    ensures Xor(a, b) == Xor(b, a)
  {
    hide W.Xor;
    W.XorComm(a.l, b.l);
    W.XorComm(a.r, b.r);
  }

  lemma XorAssoc(a: Half, b: Half, c: Half)
    ensures Xor(a, Xor(b, c)) == Xor(Xor(a, b), c)
  {
    hide W.Xor;
    W.XorAssoc(a.l, b.l, c.l);
    W.XorAssoc(a.r, b.r, c.r);
  }

  lemma XorSelf(a: Half, b: Half)
    ensures Xor(Xor(a, b), b) == a
  {
    hide W.Xor;
    W.XorSelf(a.l, b.l);
    W.XorSelf(a.r, b.r);
  }

  /** (a ^ b) ^ (c ^ d) == (a ^ c) ^ (b ^ d) */
  lemma WordsExchange(a: bv32, b: bv32, c: bv32, d: bv32)
    ensures W.Xor(W.Xor(a, b), W.Xor(c, d)) == W.Xor(W.Xor(a, c), W.Xor(b, d))
  {
    hide W.Xor;
    W.XorAssoc(a, b, W.Xor(c, d));
    W.XorAssoc(b, c, d);
    W.XorComm(b, c);
    W.XorAssoc(c, b, d);
    W.XorAssoc(a, c, W.Xor(b, d));
  }

  lemma XorExchange(a: Half, b: Half, c: Half, d: Half)
    ensures Xor(Xor(a, b), Xor(c, d)) == Xor(Xor(a, c), Xor(b, d))
  {
    hide W.Xor;
    WordsExchange(a.l, b.l, c.l, d.l);
    WordsExchange(a.r, b.r, c.r, d.r);
  }

  /** A common offset cancels. */
  lemma XorCancel(a: Half, b: Half, w: Half)
    ensures Xor(Xor(a, w), Xor(b, w)) == Xor(a, b)
  {
    hide Xor;
    XorExchange(a, w, b, w);
    XorAssoc(Xor(a, b), w, w);
    XorSelf(Xor(a, b), w);
  }

  lemma RoundSmMixes(t: Tables, x: Half, k: Half, y: Half)
    ensures RoundSm(t, x, k, y) == Xor(y, Mix(Xor(Substitute(t, x), Half(k.r, k.l))))
  {
    hide Substitute, W.Xor, W.Ror8;
    var s := Substitute(t, x);
    W.XorComm(s.r, k.l);
    W.XorAssoc(s.l, k.r, W.Xor(s.r, k.l));
    W.XorComm(k.r, W.Xor(s.r, k.l));
  }

  lemma MixLinear(a: Half, b: Half)
    ensures Mix(Xor(a, b)) == Xor(Mix(a), Mix(b))
  {
    hide W.Xor, W.Ror8;
    WordsExchange(a.l, b.l, a.r, b.r);
    W.Ror8Linear(a.r, b.r);
    WordsExchange(W.Ror8(a.r), W.Ror8(b.r), W.Xor(a.l, a.r), W.Xor(b.l, b.r));
  }

  lemma MixUnMix(k: Half)
    ensures Mix(Half(UnMix(k).r, UnMix(k).l)) == k
  {
    hide W.Xor, W.Ror8, W.Rol8;
    var d := W.Xor(k.l, k.r);
    W.XorSelf(k.l, W.Rol8(d));
    W.Ror8Rol8(d);
    W.XorComm(k.l, k.r);
    W.XorSelf(k.r, k.l);
  }

  /** FLInv is affine: a difference w in its input leaves as Carry(w, k). */
  lemma FLInvCarries(y: Half, w: Half, k: Half)
    ensures FLInv(Xor(y, w), k) == Xor(FLInv(y, k), Carry(w, k))
  {
    hide W.Xor, W.And, W.Or, W.AndNot, W.Rol1;
    W.OrAffine(y.r, w.r, k.r);
    WordsExchange(y.l, w.l, W.Or(y.r, k.r), W.AndNot(w.r, k.r));
    var y1, w1 := FLInv(y, k).l, Carry(w, k).l;
    W.AndLinear(y1, w1, k.l);
    W.Rol1Linear(W.And(y1, k.l), W.And(w1, k.l));
    WordsExchange(y.r, w.r, W.Rol1(W.And(y1, k.l)), W.Rol1(W.And(w1, k.l)));
  }

  /** FL undoes that: a difference Carry(w, k) in its input leaves as w. */
  lemma FLCarries(x: Half, w: Half, k: Half)
    ensures FL(Xor(x, Carry(w, k)), k) == Xor(FL(x, k), w)
  {
    hide W.Xor, W.And, W.Or, W.AndNot, W.Rol1;
    var c := Carry(w, k);
    var p, q := W.Rol1(W.And(x.l, k.l)), W.Rol1(W.And(c.l, k.l));
    W.AndLinear(x.l, c.l, k.l);
    W.Rol1Linear(W.And(x.l, k.l), W.And(c.l, k.l));
    WordsExchange(x.r, c.r, p, q);
    W.XorSelf(w.r, q);
    var x2 := FL(x, k).r;
    W.OrAffine(x2, w.r, k.r);
    WordsExchange(x.l, c.l, W.Or(x2, k.r), W.AndNot(w.r, k.r));
    W.XorSelf(w.l, W.AndNot(w.r, k.r));
  }

  lemma CarryLinear(a: Half, b: Half, k: Half)
    ensures Carry(Xor(a, b), k) == Xor(Carry(a, k), Carry(b, k))
  {
    hide W.Xor, W.And, W.AndNot, W.Rol1;
    W.AndNotLinear(a.r, b.r, k.r);
    WordsExchange(a.l, b.l, W.AndNot(a.r, k.r), W.AndNot(b.r, k.r));
    var a1, b1 := Carry(a, k).l, Carry(b, k).l;
    W.AndLinear(a1, b1, k.l);
    W.Rol1Linear(W.And(a1, k.l), W.And(b1, k.l));
    WordsExchange(a.r, b.r, W.Rol1(W.And(a1, k.l)), W.Rol1(W.And(b1, k.l)));
  }

  lemma FLInverse(x: Half, k: Half)
    ensures FLInv(FL(x, k), k) == x
    ensures FL(FLInv(x, k), k) == x
  {
    hide W.Xor, W.And, W.Or, W.Rol1;
    var z := FL(x, k);
    W.XorSelf(x.l, W.Or(z.r, k.r));
    W.XorSelf(x.r, W.Rol1(W.And(x.l, k.l)));
    var y := FLInv(x, k);
    W.XorSelf(x.r, W.Rol1(W.And(y.l, k.l)));
    W.XorSelf(x.l, W.Or(x.r, k.r));
  }

  // ------------------------------------------------- the rewrite keeps the cipher

  lemma UnpackIs(w: bv32)
    ensures Unpack(w) == Bytes(Byte(w, 24), Byte(w, 16), Byte(w, 8), Byte(w, 0))
  {
  }

  /** What the four tables hold of one half of the block. */
  function Row(t1: bv8, t2: bv8, t3: bv8, t4: bv8): bv32 {
    W.Word(t1 ^ t3 ^ t4, t1 ^ t2 ^ t4, t1 ^ t2 ^ t3, t2 ^ t3 ^ t4)
  }

  lemma FourWords(t1: bv8, t2: bv8, t3: bv8, t4: bv8)
    ensures XorAll(W.Word(t1, t1, t1, 0), W.Word(0, t2, t2, t2), W.Word(t3, 0, t3, t3), W.Word(t4, t4, 0, t4))
            == Row(t1, t2, t3, t4)
  {
    hide W.Word, W.Xor, W.Xor8;
    W.XorWord(t1, t1, t1, 0, 0, t2, t2, t2);
    W.XorWord(W.Xor8(t1, 0), W.Xor8(t1, t2), W.Xor8(t1, t2), W.Xor8(0, t2), t3, 0, t3, t3);
    W.XorWord(W.Xor8(W.Xor8(t1, 0), t3), W.Xor8(W.Xor8(t1, t2), 0), W.Xor8(W.Xor8(t1, t2), t3), W.Xor8(W.Xor8(0, t2), t3),
              t4, t4, 0, t4);
    W.SecondIsZero(t1, t3, t4);
    W.ThirdIsZero(t1, t2, t4);
    W.FourthIsZero(t1, t2, t3);
    W.FirstIsZero(t2, t3, t4);
  }

  /** The last half of the P-function on words completes the byte-wise one. */
  lemma MixDiffuses(t1: bv8, t2: bv8, t3: bv8, t4: bv8, t5: bv8, t6: bv8, t7: bv8, t8: bv8)
    ensures Mix(Half(Row(t8, t5, t6, t7), Row(t1, t2, t3, t4))) == Diffused(t1, t2, t3, t4, t5, t6, t7, t8)
  {
    hide W.Word, W.Xor, W.Xor8, W.Ror8;
    W.XorWord(t8 ^ t6 ^ t7, t8 ^ t5 ^ t7, t8 ^ t5 ^ t6, t5 ^ t6 ^ t7, t1 ^ t3 ^ t4, t1 ^ t2 ^ t4, t1 ^ t2 ^ t3, t2 ^ t3 ^ t4);
    W.XorThrees(t8, t6, t7, t1, t3, t4);
    W.XorThrees(t8, t5, t7, t1, t2, t4);
    W.XorThrees(t8, t5, t6, t1, t2, t3);
    W.XorThreesInOrder(t5, t6, t7, t2, t3, t4);
    W.Ror8Word(t1 ^ t3 ^ t4, t1 ^ t2 ^ t4, t1 ^ t2 ^ t3, t2 ^ t3 ^ t4);
    W.XorWord(t2 ^ t3 ^ t4, t1 ^ t3 ^ t4, t1 ^ t2 ^ t4, t1 ^ t2 ^ t3,
              t1 ^ t3 ^ t4 ^ t6 ^ t7 ^ t8, t1 ^ t2 ^ t4 ^ t5 ^ t7 ^ t8, t1 ^ t2 ^ t3 ^ t5 ^ t6 ^ t8, t2 ^ t3 ^ t4 ^ t5 ^ t6 ^ t7);
    W.CancelLastTwo(t2, t3, t4, t1, t6, t7, t8);
    W.CancelOuter(t1, t3, t4, t2, t5, t7, t8);
    W.CancelFirstTwo(t1, t2, t4, t3, t5, t6, t8);
    W.CancelShifted(t1, t2, t3, t4, t5, t6, t7);
  }

  /** CAMELLIA_F is the F-function of RFC 3713. */
  lemma MacroIsF(t: Tables, sb: Boxes, x: Half, k: Half)
    requires MadeOf(t, sb)
    ensures CamelliaF(t, x, k) == F(sb, x, k)
  {
    hide W.Word, Xor, Unpack, Byte, Mix, Diffused, XorAll, Row;
    var z := Xor(x, k);
    var u, v := Unpack(z.l), Unpack(z.r);
    UnpackIs(z.l);
    UnpackIs(z.r);
    FourWords(sb.s1(u.b1), sb.s2(u.b2), sb.s3(u.b3), sb.s4(u.b4));
    FourWords(sb.s1(v.b4), sb.s2(v.b1), sb.s3(v.b2), sb.s4(v.b3));
    MixDiffuses(sb.s1(u.b1), sb.s2(u.b2), sb.s3(u.b3), sb.s4(u.b4), sb.s2(v.b1), sb.s3(v.b2), sb.s4(v.b3), sb.s1(v.b4));
  }

  lemma AndRotatedIs(a: bv32, b: bv32, k: bv32)
    ensures W.Xor(a, W.Rol1(W.And(b, k))) == AndRotated(a, b, k)
  {
    W.XorRolAnd(a, b, k);
    hide W.Xor, W.Rol1, W.And;
  }

  lemma OredIs(a: bv32, b: bv32, k: bv32)
    ensures W.Xor(a, W.Or(b, k)) == Ored(a, b, k)
  {
    W.XorOr(a, b, k);
    hide W.Xor, W.Or;
  }

  lemma FLIsPlain(x: Half, k: Half)
    ensures FL(x, k) == PlainFL(x, k)
  {
    hide W.Xor, W.Or, W.Rol1, W.And, AndRotated, Ored;
    AndRotatedIs(x.r, x.l, k.l);
    OredIs(x.l, FL(x, k).r, k.r);
  }

  lemma FLInvIsPlain(y: Half, k: Half)
    ensures FLInv(y, k) == PlainFLInv(y, k)
  {
    hide W.Xor, W.Or, W.Rol1, W.And, AndRotated, Ored;
    OredIs(y.l, y.r, k.r);
    AndRotatedIs(y.r, FLInv(y, k).l, k.l);
  }

  /** The layer as the macros compute it is the layer of RFC 3713. */
  lemma LayerIsPlain(s: seq<Half>, g: nat, b: Block)
    requires 8 * g + 1 < |s|
    ensures FLLayer(s, g, b) == PlainFLLayer(s, g, b)
  {
    hide FL, FLInv, PlainFL, PlainFLInv;
    FLIsPlain(b.d1, s[8 * g]);
    FLInvIsPlain(b.d2, s[8 * g + 1]);
  }

  /** One fast round does the work of one plain round and moves the offset on. */
  lemma RoundAgrees(t: Tables, sb: Boxes, x: Half, key: Half, y: Half, before: Half, after: Half)
    requires MadeOf(t, sb)
    ensures RoundSm(t, Xor(x, key), UnMix(Xor(before, after)), Xor(y, before)) == Xor(Xor(y, F(sb, x, key)), after)
  {
    hide RoundSm, Xor, Mix, UnMix, Substitute, F, MadeOf;
    MacroIsF(t, sb, x, key);
    var k, s := Xor(before, after), Substitute(t, Xor(x, key));
    RoundSmMixes(t, Xor(x, key), UnMix(k), Xor(y, before));
    MixLinear(s, Half(UnMix(k).r, UnMix(k).l));
    MixUnMix(k);
    XorExchange(y, before, Mix(s), k);
    XorComm(before, after);
    XorAssoc(before, before, after);
    XorComm(before, k);
    XorSelf(after, before);
  }

  lemma RoundsAgree(t: Tables, sb: Boxes, s: seq<Half>, n: nat, k: seq<Half>, g: nat, b: Block)
    requires MadeOf(t, sb) && IsSchedule(s, n) && Absorbed(s, n, k) && g < n
    ensures var fast := FastRounds(t, k, g, Block(Xor(b.d1, s[8 * g + 2]), Xor(b.d2, First(s, g))));
            var plain := PlainRounds(sb, s, g, b);
            fast == Block(Xor(plain.d1, Last(s, n, g)), Xor(plain.d2, s[8 * g + 7]))
  {
    hide RoundSm, Xor, F, UnMix, First, Last, MadeOf;
    assert GroupAbsorbed(s, n, k, g);
    var r := 8 * g + 2;
    var d2 := Xor(b.d2, F(sb, b.d1, s[r]));
    var d1 := Xor(b.d1, F(sb, d2, s[r + 1]));
    var d2' := Xor(d2, F(sb, d1, s[r + 2]));
    var d1' := Xor(d1, F(sb, d2', s[r + 3]));
    var d2'' := Xor(d2', F(sb, d1', s[r + 4]));
    RoundAgrees(t, sb, b.d1, s[r], b.d2, First(s, g), s[r + 1]);
    RoundAgrees(t, sb, d2, s[r + 1], b.d1, s[r], s[r + 2]);
    RoundAgrees(t, sb, d1, s[r + 2], d2, s[r + 1], s[r + 3]);
    RoundAgrees(t, sb, d2', s[r + 3], d1, s[r + 2], s[r + 4]);
    RoundAgrees(t, sb, d1', s[r + 4], d2', s[r + 3], s[r + 5]);
    RoundAgrees(t, sb, d2'', s[r + 5], d1', s[r + 4], Last(s, n, g));
  }

  /** After every group the fast state is the plain state, offset by the keys still to come. */
  lemma {:induction false} GroupsAgree(t: Tables, sb: Boxes, s: seq<Half>, n: nat, k: seq<Half>, g: nat, m: Block)
    requires MadeOf(t, sb) && IsSchedule(s, n) && Absorbed(s, n, k) && g < n
    ensures var plain := PlainGroups(sb, s, g, m);
            FastGroups(t, k, g, m) == Block(Xor(plain.d1, Last(s, n, g)), Xor(plain.d2, s[8 * g + 7]))
  {
    hide Xor, FL, FLInv, PlainFL, PlainFLInv, Carry, FastRounds, PlainRounds, UnMix, MadeOf;
    assert GroupAbsorbed(s, n, k, g);
    if g == 0 {
      XorAssoc(m.d1, s[0], s[2]);
      XorSelf(m.d2, s[1]);
      RoundsAgree(t, sb, s, n, k, 0, Block(Xor(m.d1, s[0]), Xor(m.d2, s[1])));
    } else {
      GroupsAgree(t, sb, s, n, k, g - 1, m);
      var plain := PlainGroups(sb, s, g - 1, m);
      FLCarries(plain.d1, s[8 * g + 2], s[8 * g]);
      FLInvCarries(plain.d2, s[8 * g - 1], s[8 * g + 1]);
      LayerIsPlain(s, g, plain);
      RoundsAgree(t, sb, s, n, k, g, FLLayer(s, g, plain));
    }
  }

  /** For every schedule, block and S-boxes the fast cipher on their tables is the plain cipher. */
  lemma FastIsPlain(t: Tables, sb: Boxes, s: seq<Half>, n: nat, k: seq<Half>, m: Block)
    requires MadeOf(t, sb) && IsSchedule(s, n) && Absorbed(s, n, k)
    ensures FastEncrypt(t, k, n, m) == Plain(sb, s, n, m)
  {
    hide Xor, FastGroups, PlainGroups, UnMix, MadeOf;
    GroupsAgree(t, sb, s, n, k, n - 1, m);
    var plain := PlainGroups(sb, s, n - 1, m);
    XorAssoc(plain.d2, s[8 * n - 1], Xor(s[8 * n], s[8 * n - 1]));
    XorComm(s[8 * n], s[8 * n - 1]);
    XorAssoc(s[8 * n - 1], s[8 * n - 1], s[8 * n]);
    XorComm(s[8 * n - 1], Xor(s[8 * n - 1], s[8 * n]));
    XorSelf(s[8 * n], s[8 * n - 1]);
  }

  // ------------------------------------------------------------- decryption

  function DecryptRounds(t: Tables, k: seq<Half>, g: nat, b: Block): Block
    requires 8 * g + 7 < |k|
  {
    var d2 := RoundSm(t, b.d1, k[8 * g + 7], b.d2);
    var d1 := RoundSm(t, d2, k[8 * g + 6], b.d1);
    var d2' := RoundSm(t, d1, k[8 * g + 5], d2);
    var d1' := RoundSm(t, d2', k[8 * g + 4], d1);
    var d2'' := RoundSm(t, d1', k[8 * g + 3], d2');
    var d1'' := RoundSm(t, d2'', k[8 * g + 2], d1');
    Block(d1'', d2'')
  }

  function DecryptLayer(k: seq<Half>, g: nat, b: Block): Block
    requires 8 * g + 1 < |k|
  {
    Block(FL(b.d1, k[8 * g + 1]), FLInv(b.d2, k[8 * g]))
  }

  /** Groups g, g-1, .. 0 with the layers between them. */
  function DecryptGroups(t: Tables, k: seq<Half>, g: nat, b: Block): Block
    requires 8 * g + 7 < |k|
  {
    var r := DecryptRounds(t, k, g, b);
    if g == 0 then r else DecryptGroups(t, k, g - 1, DecryptLayer(k, g, r))
  }

  /** camellia_do_decrypt with max == 8 * n, including the caller's swap of the halves. */
  function FastDecrypt(t: Tables, k: seq<Half>, n: nat, c: Block): Block
    requires n >= 1 && |k| > 8 * n
  {
    var b := DecryptGroups(t, k, n - 1, Block(Xor(c.d1, k[8 * n]), c.d2));
    Block(Xor(b.d2, k[0]), b.d1)
  }

  function Swap(b: Block): Block {
    Block(b.d2, b.d1)
  }

  lemma RoundSmTwice(t: Tables, x: Half, k: Half, y: Half)
    ensures RoundSm(t, x, k, RoundSm(t, x, k, y)) == y
  {
    hide RoundSm, Xor, Mix, Substitute;
    RoundSmMixes(t, x, k, y);
    RoundSmMixes(t, x, k, RoundSm(t, x, k, y));
    XorSelf(y, Mix(Xor(Substitute(t, x), Half(k.r, k.l))));
  }

  lemma RoundsInvert(t: Tables, k: seq<Half>, g: nat, b: Block)
    requires 8 * g + 7 < |k|
    ensures DecryptRounds(t, k, g, Swap(FastRounds(t, k, g, b))) == Swap(b)
  {
    hide RoundSm;
    var r := 8 * g + 2;
    var d2 := RoundSm(t, b.d1, k[r], b.d2);
    var d1 := RoundSm(t, d2, k[r + 1], b.d1);
    var d2' := RoundSm(t, d1, k[r + 2], d2);
    var d1' := RoundSm(t, d2', k[r + 3], d1);
    var d2'' := RoundSm(t, d1', k[r + 4], d2');
    RoundSmTwice(t, d2'', k[r + 5], d1');
    RoundSmTwice(t, d1', k[r + 4], d2');
    RoundSmTwice(t, d2', k[r + 3], d1);
    RoundSmTwice(t, d1, k[r + 2], d2);
    RoundSmTwice(t, d2, k[r + 1], b.d1);
    RoundSmTwice(t, b.d1, k[r], b.d2);
  }

  lemma {:induction false} GroupsInvert(t: Tables, k: seq<Half>, g: nat, m: Block)
    requires 8 * g + 7 < |k|
    ensures DecryptGroups(t, k, g, Swap(FastGroups(t, k, g, m))) == Block(m.d2, Xor(m.d1, k[0]))
  {
    hide Xor, FL, FLInv, FastRounds, DecryptRounds;
    if g == 0 {
      RoundsInvert(t, k, 0, Block(Xor(m.d1, k[0]), m.d2));
    } else {
      var b := FastGroups(t, k, g - 1, m);
      RoundsInvert(t, k, g, FLLayer(k, g, b));
      FLInverse(b.d1, k[8 * g]);
      FLInverse(b.d2, k[8 * g + 1]);
      GroupsInvert(t, k, g - 1, m);
    }
  }

  /** camellia_do_decrypt undoes camellia_do_encrypt whatever the subkeys and tables are. */
  lemma DecryptInvertsEncrypt(t: Tables, k: seq<Half>, n: nat, m: Block)
    requires n >= 1 && |k| > 8 * n
    ensures FastDecrypt(t, k, n, FastEncrypt(t, k, n, m)) == m
  {
    hide Xor, FastGroups, DecryptGroups;
    var b := FastGroups(t, k, n - 1, m);
    XorSelf(b.d2, k[8 * n]);
    GroupsInvert(t, k, n - 1, m);
    XorSelf(m.d1, k[0]);
  }

  lemma RoundsInvertBack(t: Tables, k: seq<Half>, g: nat, b: Block)
    requires 8 * g + 7 < |k|
    ensures FastRounds(t, k, g, Swap(DecryptRounds(t, k, g, b))) == Swap(b)
  {
    hide RoundSm;
    var r := 8 * g + 2;
    var d2 := RoundSm(t, b.d1, k[r + 5], b.d2);
    var d1 := RoundSm(t, d2, k[r + 4], b.d1);
    var d2' := RoundSm(t, d1, k[r + 3], d2);
    var d1' := RoundSm(t, d2', k[r + 2], d1);
    var d2'' := RoundSm(t, d1', k[r + 1], d2');
    RoundSmTwice(t, d2'', k[r], d1');
    RoundSmTwice(t, d1', k[r + 1], d2');
    RoundSmTwice(t, d2', k[r + 2], d1);
    RoundSmTwice(t, d1, k[r + 3], d2);
    RoundSmTwice(t, d2, k[r + 4], b.d1);
    RoundSmTwice(t, b.d1, k[r + 5], b.d2);
  }

  lemma {:induction false} GroupsInvertBack(t: Tables, k: seq<Half>, g: nat, b: Block)
    requires 8 * g + 7 < |k|
    ensures var d := DecryptGroups(t, k, g, b);
            FastGroups(t, k, g, Block(Xor(d.d2, k[0]), d.d1)) == Swap(b)
  {
    hide Xor, FL, FLInv, FastRounds, DecryptRounds;
    var r := DecryptRounds(t, k, g, b);
    RoundsInvertBack(t, k, g, b);
    if g == 0 {
      XorSelf(r.d2, k[0]);
    } else {
      GroupsInvertBack(t, k, g - 1, DecryptLayer(k, g, r));
      FLInverse(r.d1, k[8 * g + 1]);
      FLInverse(r.d2, k[8 * g]);
    }
  }

  /** And the other way round: encrypting what was decrypted gives the ciphertext back. */
  lemma EncryptInvertsDecrypt(t: Tables, k: seq<Half>, n: nat, c: Block)
    requires n >= 1 && |k| > 8 * n
    ensures FastEncrypt(t, k, n, FastDecrypt(t, k, n, c)) == c
  {
    hide Xor, FastGroups, DecryptGroups;
    GroupsInvertBack(t, k, n - 1, Block(Xor(c.d1, k[8 * n]), c.d2));
    XorSelf(c.d1, k[8 * n]);
  }

  // --------------------------------------------------------- camellia_setup_tail

  /** kw2 as it reaches group g, pushed through the FLInv layers on the way. */
  ghost function Kw2(s: seq<Half>, g: nat): Half
    requires 8 * g + 1 < |s|
  {
    if g == 0 then s[1] else Carry(Kw2(s, g - 1), s[8 * g + 1])
  }

  /** kw4 as it reaches group g, pulled back through the FL layers behind it. */
  ghost function Kw4(s: seq<Half>, n: nat, g: nat): Half
    requires IsSchedule(s, n) && g < n
    decreases n - g
  {
    if g + 1 == n then s[8 * n + 1] else Carry(Kw4(s, n, g + 1), s[8 * g + 8])
  }

  ghost predicate Kw2Absorbed(s: seq<Half>, n: nat, a: seq<Half>, g: nat)
    requires IsSchedule(s, n) && |a| == |s| && g < n
  {
    && a[8 * g] == s[8 * g]
    && (g > 0 ==> a[8 * g + 1] == s[8 * g + 1])
    && a[8 * g + 2] == s[8 * g + 2] && a[8 * g + 3] == Xor(s[8 * g + 3], Kw2(s, g))
    && a[8 * g + 4] == s[8 * g + 4] && a[8 * g + 5] == Xor(s[8 * g + 5], Kw2(s, g))
    && a[8 * g + 6] == s[8 * g + 6] && a[8 * g + 7] == Xor(s[8 * g + 7], Kw2(s, g))
  }

  /** Groups below g have absorbed kw2, the rest of the schedule is still s. */
  ghost predicate Kw2AbsorbedBelow(s: seq<Half>, n: nat, a: seq<Half>, g: nat)
    requires IsSchedule(s, n) && g <= n
  {
    && |a| == |s|
    && a[1] == (if g == 0 then s[1] else Kw2(s, g - 1))
    && (forall h: nat | h < g :: Kw2Absorbed(s, n, a, h))
    && (forall i | 8 * g <= i < |s| && i != 1 :: a[i] == s[i])
  }

  /** The FLInv layer before group g, then rounds 2, 4 and 6 of the group. */
  ghost function Kw2Step(a: seq<Half>, g: nat): seq<Half>
    requires 8 * g + 7 < |a|
  {
    var w := if g == 0 then a[1] else Carry(a[1], a[8 * g + 1]);
    a[1 := w][8 * g + 3 := Xor(a[8 * g + 3], w)][8 * g + 5 := Xor(a[8 * g + 5], w)][8 * g + 7 := Xor(a[8 * g + 7], w)]
  }

  lemma Kw2AbsorbedFrame(s: seq<Half>, n: nat, a: seq<Half>, b: seq<Half>, g: nat)
    requires IsSchedule(s, n) && |a| == |b| == |s| && g < n && Kw2Absorbed(s, n, a, g)
    requires forall i | 8 * g <= i < 8 * g + 8 && i != 1 :: b[i] == a[i]
    ensures Kw2Absorbed(s, n, b, g)
  {
  }

  lemma Kw2StepHere(s: seq<Half>, n: nat, a: seq<Half>, g: nat)
    requires IsSchedule(s, n) && g < n && |a| == |s|
    requires a[1] == if g == 0 then s[1] else Kw2(s, g - 1)
    requires forall i | 8 * g <= i < 8 * g + 8 && i != 1 :: a[i] == s[i]
    ensures Kw2Step(a, g)[1] == Kw2(s, g) && Kw2Absorbed(s, n, Kw2Step(a, g), g)
  {
    hide Xor, Carry;
  }

  lemma Kw2StepElsewhere(a: seq<Half>, g: nat, i: nat)
    requires 8 * g + 7 < |a| && i < |a| && i != 1 && (i < 8 * g || 8 * g + 8 <= i)
    ensures Kw2Step(a, g)[i] == a[i]
  {
  }

  lemma Kw2StepAbsorbs(s: seq<Half>, n: nat, a: seq<Half>, g: nat)
    requires IsSchedule(s, n) && g < n && Kw2AbsorbedBelow(s, n, a, g)
    ensures Kw2AbsorbedBelow(s, n, Kw2Step(a, g), g + 1)
  {
    hide Xor, Carry, Kw2, Kw2Absorbed;
    var b := Kw2Step(a, g);
    Kw2StepHere(s, n, a, g);
    forall i: nat | i < |a| && i != 1 && (i < 8 * g || 8 * g + 8 <= i) ensures b[i] == a[i] {
      Kw2StepElsewhere(a, g, i);
    }
    forall h: nat | h < g ensures Kw2Absorbed(s, n, b, h) {
      Kw2AbsorbedFrame(s, n, a, b, h);
    }
  }

  method AbsorbKw2InGroup(sub: array<Half>, g: nat)
    requires 8 * g + 7 < sub.Length
    modifies sub
    ensures sub[..] == Kw2Step(old(sub[..]), g)
  {
    hide Xor, Carry;
    if g > 0 {
      sub[1] := Carry(sub[1], sub[8 * g + 1]);
    }
    sub[8 * g + 3] := Xor(sub[8 * g + 3], sub[1]);
    sub[8 * g + 5] := Xor(sub[8 * g + 5], sub[1]);
    sub[8 * g + 7] := Xor(sub[8 * g + 7], sub[1]);
  }

  method AbsorbKw2(sub: array<Half>, n: nat)
    requires (n == 3 || n == 4) && IsSchedule(sub[..], n)
    modifies sub
    ensures forall g: nat | g < n :: Kw2Absorbed(old(sub[..]), n, sub[..], g)
    ensures sub[8 * n] == Xor(old(sub[8 * n]), Kw2(old(sub[..]), n - 1))
    ensures sub[8 * n + 1] == old(sub[8 * n + 1])
  {
    hide Xor, Carry, Kw2Absorbed, Kw2, Kw2Step;
    ghost var s := sub[..];
    Kw2StepAbsorbs(s, n, sub[..], 0);
    AbsorbKw2InGroup(sub, 0);
    Kw2StepAbsorbs(s, n, sub[..], 1);
    AbsorbKw2InGroup(sub, 1);
    Kw2StepAbsorbs(s, n, sub[..], 2);
    AbsorbKw2InGroup(sub, 2);
    if n == 4 {
      Kw2StepAbsorbs(s, n, sub[..], 3);
      AbsorbKw2InGroup(sub, 3);
    }
    ghost var a := sub[..];
    sub[8 * n] := Xor(sub[8 * n], sub[1]);
    forall g: nat | g < n ensures Kw2Absorbed(s, n, sub[..], g) {
      Kw2AbsorbedFrame(s, n, a, sub[..], g);
    }
  }

  ghost predicate Kw4Absorbed(s: seq<Half>, n: nat, a: seq<Half>, b: seq<Half>, g: nat)
    requires IsSchedule(s, n) && |a| == |b| == |s| && g < n
  {
    && (g > 0 ==> b[8 * g] == a[8 * g])
    && b[8 * g + 1] == a[8 * g + 1]
    && b[8 * g + 2] == Xor(a[8 * g + 2], Kw4(s, n, g)) && b[8 * g + 3] == a[8 * g + 3]
    && b[8 * g + 4] == Xor(a[8 * g + 4], Kw4(s, n, g)) && b[8 * g + 5] == a[8 * g + 5]
    && b[8 * g + 6] == Xor(a[8 * g + 6], Kw4(s, n, g)) && b[8 * g + 7] == a[8 * g + 7]
  }

  /** Groups from g on have absorbed kw4, the rest of the schedule is still a. */
  ghost predicate Kw4AbsorbedFrom(s: seq<Half>, n: nat, a: seq<Half>, b: seq<Half>, g: nat)
    requires IsSchedule(s, n) && |a| == |s|
  {
    && |b| == |a|
    && (forall h: nat | g <= h < n :: Kw4Absorbed(s, n, a, b, h))
    && (forall i | 0 <= i < |a| && (i < 8 * g || 8 * n <= i) :: b[i] == a[i])
  }

  ghost function Kw4Step(a: seq<Half>, g: nat, w: Half): seq<Half>
    requires 8 * g + 7 < |a|
  {
    a[8 * g + 6 := Xor(a[8 * g + 6], w)][8 * g + 4 := Xor(a[8 * g + 4], w)][8 * g + 2 := Xor(a[8 * g + 2], w)]
  }

  lemma Kw4AbsorbedFrame(s: seq<Half>, n: nat, a: seq<Half>, b: seq<Half>, c: seq<Half>, g: nat)
    requires IsSchedule(s, n) && |a| == |b| == |c| == |s| && g < n && Kw4Absorbed(s, n, a, b, g)
    requires forall i | 8 * g <= i < 8 * g + 8 && i != 0 :: c[i] == b[i]
    ensures Kw4Absorbed(s, n, a, c, g)
  {
  }

  lemma Kw4StepAbsorbs(s: seq<Half>, n: nat, a: seq<Half>, b: seq<Half>, g: nat)
    requires IsSchedule(s, n) && |a| == |s| && g < n && Kw4AbsorbedFrom(s, n, a, b, g + 1)
    ensures Kw4AbsorbedFrom(s, n, a, Kw4Step(b, g, Kw4(s, n, g)), g)
  {
    hide Xor, Kw4;
    var c := Kw4Step(b, g, Kw4(s, n, g));
    assert Kw4Absorbed(s, n, a, c, g) by {
      assert forall i | 8 * g <= i < 8 * g + 8 :: b[i] == a[i];
    }
    forall h: nat | g < h < n ensures Kw4Absorbed(s, n, a, c, h) {
      Kw4AbsorbedFrame(s, n, a, b, c, h);
    }
  }

  /** Rounds 5, 3 and 1 of group g. */
  method AbsorbKw4InGroup(sub: array<Half>, g: nat, kw4: Half)
    requires 8 * g + 7 < sub.Length
    modifies sub
    ensures sub[..] == Kw4Step(old(sub[..]), g, kw4)
    ensures sub[8 * g] == old(sub[8 * g])
  {
    hide Xor;
    sub[8 * g + 6] := Xor(sub[8 * g + 6], kw4);
    sub[8 * g + 4] := Xor(sub[8 * g + 4], kw4);
    sub[8 * g + 2] := Xor(sub[8 * g + 2], kw4);
  }

  method AbsorbKw4(sub: array<Half>, n: nat, ghost s: seq<Half>)
    requires (n == 3 || n == 4) && IsSchedule(sub[..], n) && IsSchedule(s, n)
    requires sub[8 * n + 1] == s[8 * n + 1]
    requires sub[0] == s[0] && sub[8] == s[8] && sub[16] == s[16] && (n == 4 ==> sub[24] == s[24])
    modifies sub
    ensures forall g: nat | g < n :: Kw4Absorbed(s, n, old(sub[..]), sub[..], g)
    ensures sub[0] == Xor(s[0], Kw4(s, n, 0)) && sub[8 * n] == old(sub[8 * n])
  {
    hide Xor, Carry, Kw4Absorbed, Kw4Step;
    ghost var a := sub[..];
    var kw4 := sub[8 * n + 1];
    if n == 4 {
      Kw4StepAbsorbs(s, n, a, sub[..], 3);
      AbsorbKw4InGroup(sub, 3, kw4);
      kw4 := Carry(kw4, sub[24]);
      assert kw4 == Kw4(s, n, 2);
    }
    Kw4StepAbsorbs(s, n, a, sub[..], 2);
    AbsorbKw4InGroup(sub, 2, kw4);
    kw4 := Carry(kw4, sub[16]);
    assert kw4 == Kw4(s, n, 1);
    Kw4StepAbsorbs(s, n, a, sub[..], 1);
    AbsorbKw4InGroup(sub, 1, kw4);
    kw4 := Carry(kw4, sub[8]);
    assert kw4 == Kw4(s, n, 0);
    Kw4StepAbsorbs(s, n, a, sub[..], 0);
    AbsorbKw4InGroup(sub, 0, kw4);
    ghost var b := sub[..];
    sub[0] := Xor(sub[0], kw4);
    forall g: nat | g < n ensures Kw4Absorbed(s, n, a, sub[..], g) {
      Kw4AbsorbedFrame(s, n, a, b, sub[..], g);
    }
  }

  /** The keys of group g after "key XOR is end of F-function", from the absorbed keys a. */
  ghost predicate MergedGroup(a: seq<Half>, n: nat, k: seq<Half>, g: nat)
    requires IsSchedule(a, n) && g < n && |k| > 8 * n
  {
    && (g > 0 ==> k[8 * g] == a[8 * g] && k[8 * g + 1] == a[8 * g + 1])
    && k[8 * g + 2] == (if g == 0 then a[3] else Xor(Carry(a[8 * g - 1], a[8 * g + 1]), a[8 * g + 3]))
    && k[8 * g + 3] == Xor(a[8 * g + 2], a[8 * g + 4])
    && k[8 * g + 4] == Xor(a[8 * g + 3], a[8 * g + 5])
    && k[8 * g + 5] == Xor(a[8 * g + 4], a[8 * g + 6])
    && k[8 * g + 6] == Xor(a[8 * g + 5], a[8 * g + 7])
    && k[8 * g + 7] == (if g + 1 == n then a[8 * g + 6] else Xor(a[8 * g + 6], Carry(a[8 * g + 10], a[8 * g + 8])))
  }

  /** Rounds 2 to 5 of group g. */
  method MergeInner(subkey: array<Half>, sub: array<Half>, g: nat)
    requires 8 * g + 7 < sub.Length && 8 * g + 6 < subkey.Length && subkey != sub
    modifies subkey
    ensures forall j | 8 * g + 3 <= j <= 8 * g + 6 :: subkey[j] == Xor(sub[j - 1], sub[j + 1])
    ensures forall i | 0 <= i < subkey.Length && (i < 8 * g + 3 || 8 * g + 6 < i) :: subkey[i] == old(subkey[i])
  {
    hide Xor;
    subkey[8 * g + 3] := Xor(sub[8 * g + 2], sub[8 * g + 4]);
    subkey[8 * g + 4] := Xor(sub[8 * g + 3], sub[8 * g + 5]);
    subkey[8 * g + 5] := Xor(sub[8 * g + 4], sub[8 * g + 6]);
    subkey[8 * g + 6] := Xor(sub[8 * g + 5], sub[8 * g + 7]);
  }

  method MergeGroup(subkey: array<Half>, sub: array<Half>, n: nat, g: nat)
    requires IsSchedule(sub[..], n) && g < n && subkey.Length > 8 * n && subkey != sub
    modifies subkey
    ensures MergedGroup(sub[..], n, subkey[..], g)
    ensures forall i | 0 <= i < subkey.Length && (i < 8 * g || 8 * g + 8 <= i) :: subkey[i] == old(subkey[i])
    ensures g == 0 ==> subkey[0] == old(subkey[0])
  {
    hide Xor, Carry;
    MergeInner(subkey, sub, g);
    if g > 0 {
      subkey[8 * g] := sub[8 * g];
      subkey[8 * g + 1] := sub[8 * g + 1];
      subkey[8 * g + 2] := Xor(Carry(sub[8 * g - 1], sub[8 * g + 1]), sub[8 * g + 3]);
    } else {
      subkey[2] := sub[3];
    }
    if g + 1 == n {
      subkey[8 * g + 7] := sub[8 * g + 6];
    } else {
      subkey[8 * g + 7] := Xor(sub[8 * g + 6], Carry(sub[8 * g + 10], sub[8 * g + 8]));
    }
  }

  lemma MergedGroupFrame(a: seq<Half>, n: nat, k: seq<Half>, k': seq<Half>, g: nat)
    requires IsSchedule(a, n) && g < n && |k| == |k'| > 8 * n && MergedGroup(a, n, k, g)
    requires forall i | 8 * g <= i < 8 * g + 8 && i != 0 :: k'[i] == k[i]
    ensures MergedGroup(a, n, k', g)
  {
  }

  /** The absorbed offsets cancel out of the merged keys, but for kw2 in round 1 and kw4 in the last. */
  lemma MergedCancels(s: seq<Half>, n: nat, a: seq<Half>, b: seq<Half>, m: seq<Half>, g: nat)
    requires IsSchedule(s, n) && |a| == |b| == |s| && g < n && |m| > 8 * n
    requires forall h: nat | h < n :: Kw2Absorbed(s, n, a, h)
    requires forall h: nat | h < n :: Kw4Absorbed(s, n, a, b, h)
    requires MergedGroup(b, n, m, g)
    ensures g > 0 ==> m[8 * g] == s[8 * g] && m[8 * g + 1] == s[8 * g + 1]
    ensures m[8 * g + 2] == Xor(First(s, g), s[8 * g + 3])
    ensures m[8 * g + 3] == Xor(s[8 * g + 2], s[8 * g + 4])
    ensures m[8 * g + 4] == Xor(s[8 * g + 3], s[8 * g + 5])
    ensures m[8 * g + 5] == Xor(s[8 * g + 4], s[8 * g + 6])
    ensures m[8 * g + 6] == Xor(s[8 * g + 5], s[8 * g + 7])
    ensures m[8 * g + 7] == Xor(s[8 * g + 6], Last(s, n, g))
  {
    hide Xor, Carry;
    var r := 8 * g;
    var w, v := Kw2(s, g), Kw4(s, n, g);
    assert Kw2Absorbed(s, n, a, g) && Kw4Absorbed(s, n, a, b, g);
    XorCancel(s[r + 2], s[r + 4], v);
    XorCancel(s[r + 3], s[r + 5], w);
    XorCancel(s[r + 4], s[r + 6], v);
    XorCancel(s[r + 5], s[r + 7], w);
    if g == 0 {
      XorComm(s[3], s[1]);
    } else {
      assert Kw2Absorbed(s, n, a, g - 1) && Kw4Absorbed(s, n, a, b, g - 1);
      CarryLinear(s[r - 1], Kw2(s, g - 1), s[r + 1]);
      XorCancel(Carry(s[r - 1], s[r + 1]), s[r + 3], w);
    }
    if g + 1 < n {
      assert Kw2Absorbed(s, n, a, g + 1) && Kw4Absorbed(s, n, a, b, g + 1);
      CarryLinear(s[r + 10], Kw4(s, n, g + 1), s[r + 8]);
      XorCancel(s[r + 6], Carry(s[r + 10], s[r + 8]), v);
    }
  }

  method MergeNext(subkey: array<Half>, sub: array<Half>, n: nat, g: nat)
    requires IsSchedule(sub[..], n) && g < n && subkey.Length > 8 * n && subkey != sub
    requires forall h: nat | h < g :: MergedGroup(sub[..], n, subkey[..], h)
    modifies subkey
    ensures forall h: nat | h <= g :: MergedGroup(sub[..], n, subkey[..], h)
    ensures subkey[0] == old(subkey[0])
  {
    hide MergedGroup;
    ghost var k := subkey[..];
    MergeGroup(subkey, sub, n, g);
    forall h: nat | h < g ensures MergedGroup(sub[..], n, subkey[..], h) {
      MergedGroupFrame(sub[..], n, k, subkey[..], h);
    }
  }

  /** "key XOR is end of F-function". */
  method MergeKeys(subkey: array<Half>, sub: array<Half>, n: nat)
    requires (n == 3 || n == 4) && IsSchedule(sub[..], n) && subkey.Length > 8 * n && subkey != sub
    modifies subkey
    ensures forall g: nat | g < n :: MergedGroup(sub[..], n, subkey[..], g)
    ensures subkey[0] == Xor(sub[0], sub[2]) && subkey[8 * n] == Xor(sub[8 * n], sub[8 * n - 1])
  {
    hide Xor, MergedGroup;
    subkey[0] := Xor(sub[0], sub[2]);
    MergeNext(subkey, sub, n, 0);
    MergeNext(subkey, sub, n, 1);
    MergeNext(subkey, sub, n, 2);
    if n == 4 {
      MergeNext(subkey, sub, n, 3);
    }
    ghost var k := subkey[..];
    subkey[8 * n] := Xor(sub[8 * n], sub[8 * n - 1]);
    forall g: nat | g < n ensures MergedGroup(sub[..], n, subkey[..], g) {
      MergedGroupFrame(sub[..], n, k, subkey[..], g);
    }
  }

  method UnMixSix(subkey: array<Half>, i: nat)
    requires i + 6 <= subkey.Length
    modifies subkey
    ensures forall j | 0 <= j < subkey.Length ::
      subkey[j] == if i <= j < i + 6 then UnMix(old(subkey[j])) else old(subkey[j])
  {
    hide UnMix;
    for j := i to i + 6
      invariant forall l | 0 <= l < subkey.Length ::
        subkey[l] == if i <= l < j then UnMix(old(subkey[l])) else old(subkey[l])
    {
      subkey[j] := UnMix(subkey[j]);
    }
  }

  /** The loop that applies the inverse of the last half of P to every round key, six at a time. */
  method UnMixRoundKeys(subkey: array<Half>, max: nat)
    requires max >= 8 && max % 8 == 0 && subkey.Length > max
    modifies subkey
    ensures forall i | 0 <= i < subkey.Length ::
      subkey[i] == if i < max && i % 8 >= 2 then UnMix(old(subkey[i])) else old(subkey[i])
  {
    hide UnMix;
    var i := 2;
    while i < max
      invariant i % 8 == 2 && 2 <= i <= max + 2
      invariant forall j | 0 <= j < subkey.Length ::
        subkey[j] == if j < i && j < max && j % 8 >= 2 then UnMix(old(subkey[j])) else old(subkey[j])
    {
      UnMixSix(subkey, i);
      i := i + 8;
    }
  }

  lemma MergedIsAbsorbed(s: seq<Half>, n: nat, a: seq<Half>, b: seq<Half>, m: seq<Half>, k: seq<Half>)
    requires IsSchedule(s, n) && |a| == |b| == |s| && |m| == |k| > 8 * n
    requires forall h: nat | h < n :: Kw2Absorbed(s, n, a, h)
    requires forall h: nat | h < n :: Kw4Absorbed(s, n, a, b, h)
    requires forall h: nat | h < n :: MergedGroup(b, n, m, h)
    requires b[0] == Xor(s[0], Kw4(s, n, 0)) && b[8 * n] == Xor(s[8 * n], Kw2(s, n - 1))
    requires m[0] == Xor(b[0], b[2]) && m[8 * n] == Xor(b[8 * n], b[8 * n - 1])
    requires forall i | 0 <= i < |m| :: k[i] == if i < 8 * n && i % 8 >= 2 then UnMix(m[i]) else m[i]
    ensures Absorbed(s, n, k)
  {
    hide Xor, UnMix, Kw2, Kw4, First, Last, MergedGroup, Kw2Absorbed, Kw4Absorbed;
    assert k[0] == m[0] && k[8 * n] == m[8 * n];
    WhiteningCancels(s, n, a, b);
    forall g: nat | g < n ensures GroupAbsorbed(s, n, k, g) {
      MergedCancels(s, n, a, b, m, g);
      UnMixedGroup(m, n, k, g);
    }
  }

  lemma WhiteningCancels(s: seq<Half>, n: nat, a: seq<Half>, b: seq<Half>)
    requires IsSchedule(s, n) && |a| == |b| == |s|
    requires forall h: nat | h < n :: Kw2Absorbed(s, n, a, h)
    requires forall h: nat | h < n :: Kw4Absorbed(s, n, a, b, h)
    requires b[0] == Xor(s[0], Kw4(s, n, 0)) && b[8 * n] == Xor(s[8 * n], Kw2(s, n - 1))
    ensures Xor(b[0], b[2]) == Xor(s[0], s[2])
    ensures Xor(b[8 * n], b[8 * n - 1]) == Xor(s[8 * n], s[8 * n - 1])
  {
    hide Xor, Kw2, Kw4;
    assert Kw2Absorbed(s, n, a, 0) && Kw4Absorbed(s, n, a, b, 0);
    XorCancel(s[0], s[2], Kw4(s, n, 0));
    assert Kw2Absorbed(s, n, a, n - 1) && Kw4Absorbed(s, n, a, b, n - 1);
    XorCancel(s[8 * n], s[8 * n - 1], Kw2(s, n - 1));
  }

  lemma UnMixedGroup(m: seq<Half>, n: nat, k: seq<Half>, g: nat)
    requires |m| == |k| > 8 * n && g < n
    requires forall i | 0 <= i < |m| :: k[i] == if i < 8 * n && i % 8 >= 2 then UnMix(m[i]) else m[i]
    ensures k[8 * g] == m[8 * g] && k[8 * g + 1] == m[8 * g + 1]
    ensures forall i | 8 * g + 2 <= i < 8 * g + 8 :: k[i] == UnMix(m[i])
  {
    hide UnMix;
  }

  /** camellia_setup_tail: from any schedule the fast subkeys of that schedule. */
  method SetupTail(subkey: array<Half>, sub: array<Half>, max: nat)
    requires (max == 24 || max == 32) && sub.Length == max + 2 && subkey.Length > max && subkey != sub
    modifies subkey, sub
    ensures Absorbed(old(sub[..]), max / 8, subkey[..])
  {
    hide Xor, UnMix, Carry, Kw2, Kw4, First, Last, MergedGroup, Absorbed, Kw4Absorbed;
    var n := max / 8;
    ghost var s := sub[..];
    AbsorbKw2(sub, n);
    ghost var a := sub[..];
    assert Kw2Absorbed(s, n, a, 0) && Kw2Absorbed(s, n, a, 1) && Kw2Absorbed(s, n, a, 2);
    assert n == 4 ==> Kw2Absorbed(s, n, a, 3);
    AbsorbKw4(sub, n, s);
    ghost var b := sub[..];
    MergeKeys(subkey, sub, n);
    ghost var m := subkey[..];
    assert sub[..] == b;
    assert forall g: nat | g < n :: MergedGroup(b, n, m, g);
    UnMixRoundKeys(subkey, max);
    MergedIsAbsorbed(s, n, a, b, m, subkey[..]);
  }

  // --------------------------------- camellia_do_encrypt and camellia_do_decrypt

  /** The block held in io, as the two 64-bit halves io[0..2] and io[2..4]. */
  ghost function BlockOf(io: seq<Half>): Block
    requires |io| == 2
  {
    Block(io[0], io[1])
  }

  method EncryptRounds(t: Tables, subkey: array<Half>, g: nat, io: array<Half>)
    requires io.Length == 2 && 8 * g + 7 < subkey.Length && io != subkey
    modifies io
    ensures BlockOf(io[..]) == FastRounds(t, subkey[..], g, old(BlockOf(io[..])))
  {
    hide RoundSm;
    io[1] := RoundSm(t, io[0], subkey[8 * g + 2], io[1]);
    io[0] := RoundSm(t, io[1], subkey[8 * g + 3], io[0]);
    io[1] := RoundSm(t, io[0], subkey[8 * g + 4], io[1]);
    io[0] := RoundSm(t, io[1], subkey[8 * g + 5], io[0]);
    io[1] := RoundSm(t, io[0], subkey[8 * g + 6], io[1]);
    io[0] := RoundSm(t, io[1], subkey[8 * g + 7], io[0]);
  }

  method DecryptRoundsInPlace(t: Tables, subkey: array<Half>, g: nat, io: array<Half>)
    requires io.Length == 2 && 8 * g + 7 < subkey.Length && io != subkey
    modifies io
    ensures BlockOf(io[..]) == DecryptRounds(t, subkey[..], g, old(BlockOf(io[..])))
  {
    hide RoundSm;
    io[1] := RoundSm(t, io[0], subkey[8 * g + 7], io[1]);
    io[0] := RoundSm(t, io[1], subkey[8 * g + 6], io[0]);
    io[1] := RoundSm(t, io[0], subkey[8 * g + 5], io[1]);
    io[0] := RoundSm(t, io[1], subkey[8 * g + 4], io[0]);
    io[1] := RoundSm(t, io[0], subkey[8 * g + 3], io[1]);
    io[0] := RoundSm(t, io[1], subkey[8 * g + 2], io[0]);
  }

  /** CAMELLIA_FLS: both layers interleaved, one word at a time. */
  method FLS(io: array<Half>, kl: Half, kr: Half)
    requires io.Length == 2
    modifies io
    ensures io[0] == FL(old(io[0]), kl) && io[1] == FLInv(old(io[1]), kr)
  {
    hide W.Xor, W.And, W.Or, W.Rol1;
    var ll, lr, rl, rr := io[0].l, io[0].r, io[1].l, io[1].r;
    var t0 := W.And(ll, kl.l);
    var t2 := W.Or(rr, kr.r);
    rl := W.Xor(rl, t2);
    lr := W.Xor(lr, W.Rol1(t0));
    var t3 := W.And(rl, kr.l);
    var t1 := W.Or(lr, kl.r);
    ll := W.Xor(ll, t1);
    rr := W.Xor(rr, W.Rol1(t3));
    io[0], io[1] := Half(ll, lr), Half(rl, rr);
  }

  method DoEncrypt(t: Tables, subkey: array<Half>, io: array<Half>, max: nat)
    requires (max == 24 || max == 32) && subkey.Length > max && io.Length == 2 && io != subkey
    modifies io
    ensures Swap(BlockOf(io[..])) == FastEncrypt(t, subkey[..], max / 8, old(BlockOf(io[..])))
  {
    hide Xor, FL, FLInv, FastRounds;
    ghost var m, k := BlockOf(io[..]), subkey[..];
    io[0] := Xor(io[0], subkey[0]);
    EncryptRounds(t, subkey, 0, io);
    assert BlockOf(io[..]) == FastGroups(t, k, 0, m);
    FLS(io, subkey[8], subkey[9]);
    EncryptRounds(t, subkey, 1, io);
    assert BlockOf(io[..]) == FastGroups(t, k, 1, m);
    FLS(io, subkey[16], subkey[17]);
    EncryptRounds(t, subkey, 2, io);
    assert BlockOf(io[..]) == FastGroups(t, k, 2, m);
    if max == 32 {
      FLS(io, subkey[24], subkey[25]);
      EncryptRounds(t, subkey, 3, io);
      assert BlockOf(io[..]) == FastGroups(t, k, 3, m);
    }
    io[1] := Xor(io[1], subkey[max]);
  }

  method DoDecrypt(t: Tables, subkey: array<Half>, io: array<Half>, max: nat)
    requires (max == 24 || max == 32) && subkey.Length > max && io.Length == 2 && io != subkey
    modifies io
    ensures Swap(BlockOf(io[..])) == FastDecrypt(t, subkey[..], max / 8, old(BlockOf(io[..])))
  {
    hide Xor, FL, FLInv, DecryptRounds;
    ghost var k := subkey[..];
    io[0] := Xor(io[0], subkey[max]);
    ghost var all := DecryptGroups(t, k, max / 8 - 1, BlockOf(io[..]));
    if max == 32 {
      DecryptRoundsInPlace(t, subkey, 3, io);
      FLS(io, subkey[25], subkey[24]);
    }
    assert all == DecryptGroups(t, k, 2, BlockOf(io[..]));
    DecryptRoundsInPlace(t, subkey, 2, io);
    FLS(io, subkey[17], subkey[16]);
    assert all == DecryptGroups(t, k, 1, BlockOf(io[..]));
    DecryptRoundsInPlace(t, subkey, 1, io);
    FLS(io, subkey[9], subkey[8]);
    assert all == DecryptGroups(t, k, 0, BlockOf(io[..]));
    DecryptRoundsInPlace(t, subkey, 0, io);
    io[1] := Xor(io[1], subkey[0]);
  }

  /** camellia_encrypt: whatever schedule the subkeys were set up from, its plain cipher. */
  method Encrypt(t: Tables, subkey: array<Half>, max: nat, src: Block, ghost s: seq<Half>, ghost sb: Boxes) returns (dst: Block)
    requires MadeOf(t, sb) && (max == 24 || max == 32) && IsSchedule(s, max / 8) && Absorbed(s, max / 8, subkey[..])
    ensures dst == Plain(sb, s, max / 8, src)
  {
    hide Xor, FastEncrypt, Plain, MadeOf;
    var tmp := new Half[] [src.d1, src.d2];
    DoEncrypt(t, subkey, tmp, max);
    FastIsPlain(t, sb, s, max / 8, subkey[..], src);
    dst := Block(tmp[1], tmp[0]);
  }

  /** camellia_decrypt: the block whose plain encryption is src. */
  method Decrypt(t: Tables, subkey: array<Half>, max: nat, src: Block, ghost s: seq<Half>, ghost sb: Boxes) returns (dst: Block)
    requires MadeOf(t, sb) && (max == 24 || max == 32) && IsSchedule(s, max / 8) && Absorbed(s, max / 8, subkey[..])
    ensures Plain(sb, s, max / 8, dst) == src
  {
    hide Xor, FastEncrypt, FastDecrypt, Plain, MadeOf;
    var tmp := new Half[] [src.d1, src.d2];
    DoDecrypt(t, subkey, tmp, max);
    dst := Block(tmp[1], tmp[0]);
    EncryptInvertsDecrypt(t, subkey[..], max / 8, src);
    FastIsPlain(t, sb, s, max / 8, subkey[..], dst);
  }
}
