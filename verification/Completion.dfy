/**
 Partial completion of a request: __end_that_request_first and req_bio_endio of block/blk-core.c
 and blk_recalc_rq_sectors of block/blk-merge.c, for a request other than the barrier proxy.
 */
module Completion {

  /** struct bio_vec. */
  datatype Vec = Vec(page: nat, off: nat, len: nat)

  /** struct bio: bi_io_vec, bi_idx, bi_size, bi_sector and BIO_UPTODATE. */
  datatype Bio = Bio(id: nat, vecs: seq<Vec>, idx: nat, size: nat, sector: nat, uptodate: bool)

  /** A call of bio_endio. */
  datatype Ended = Ended(id: nat, error: int)

  const EIO: int := -5
  const SECTOR := 512

  type Byte = (nat, nat)

  // ------------------------------------------------------------ the bytes of a chain

  function VecBytes(v: Vec): seq<Byte> {
    seq(v.len, k => (v.page, v.off + k))
  }

  function VecsBytes(vs: seq<Vec>): seq<Byte> {
    if vs == [] then [] else VecBytes(vs[0]) + VecsBytes(vs[1..])
  }

  /** What is left of a bio: the vectors from bi_idx on. */
  function BioBytes(b: Bio): seq<Byte>
    requires b.idx <= |b.vecs|
  {
    VecsBytes(b.vecs[b.idx..])
  }

  /** bi_size is the length of what is left. */
  predicate Sized(b: Bio) {
    b.idx <= |b.vecs| && b.size == |BioBytes(b)|
  }

  predicate AllSized(bios: seq<Bio>) {
    forall i | 0 <= i < |bios| :: Sized(bios[i])
  }

  function Bytes(bios: seq<Bio>): seq<Byte>
    requires AllSized(bios)
  {
    if bios == [] then [] else BioBytes(bios[0]) + Bytes(bios[1..])
  }

  // -------------------------------------------------------- what completion leaves

  /** How many leading vectors n bytes cover. */
  function Covered(vs: seq<Vec>, n: nat): (k: nat)
    ensures k <= |vs|
  {
    if n == 0 || vs == [] || vs[0].len > n then 0 else 1 + Covered(vs[1..], n - vs[0].len)
  }

  function Length(vs: seq<Vec>): nat {
    if vs == [] then 0 else vs[0].len + Length(vs[1..])
  }

  /** Its first n bytes are gone. */
  function Shortened(v: Vec, n: nat): Vec
    requires n <= v.len
  {
    v.(off := v.off + n, len := v.len - n)
  }

  lemma {:induction false} CoveredFits(vs: seq<Vec>, n: nat)
    requires n < Length(vs)
    ensures var k := Covered(vs, n);
            && k < |vs| && Length(vs[..k]) <= n && n - Length(vs[..k]) <= vs[k].len
  {
    if n == 0 || vs[0].len > n {
    } else {
      CoveredFits(vs[1..], n - vs[0].len);
      var k := Covered(vs[1..], n - vs[0].len);
      assert vs[..k + 1][1..] == vs[1..][..k];
    }
  }

  lemma {:induction false} LengthIsBytes(vs: seq<Vec>)
    ensures |VecsBytes(vs)| == Length(vs)
  {
    if vs != [] {
      LengthIsBytes(vs[1..]);
    }
  }

  /** A bio after n of its bytes, fewer than it has, were completed. */
  function Advanced(b: Bio, n: nat, error: int): Bio
    requires Sized(b) && n < b.size
  {
    if n == 0 then b
    else
      var vs := b.vecs[b.idx..];
      var k := Covered(vs, n);
      LengthIsBytes(vs);
      CoveredFits(vs, n);
      var i := b.idx + k;
      b.(idx := i, vecs := b.vecs[i := Shortened(b.vecs[i], n - Length(vs[..k]))], size := b.size - n,
         sector := b.sector + n / SECTOR, uptodate := b.uptodate && error == 0)
  }

  /** The error bio_endio gets. */
  function EndError(b: Bio, error: int): int {
    if error != 0 then error else if !b.uptodate then EIO else 0
  }

  /** The chain after n bytes were completed. */
  function Rest(bios: seq<Bio>, n: nat, error: int): seq<Bio>
    requires AllSized(bios)
  {
    if bios == [] then []
    else if n < bios[0].size then [Advanced(bios[0], n, error)] + bios[1..]
    else if n == bios[0].size then bios[1..]
    else Rest(bios[1..], n - bios[0].size, error)
  }

  /** The bios ended on the way. */
  function EndedBios(bios: seq<Bio>, n: nat, error: int): seq<Ended>
    requires AllSized(bios)
  {
    if bios == [] || n < bios[0].size then []
    else
      [Ended(bios[0].id, EndError(bios[0], error))]
      + if n == bios[0].size then [] else EndedBios(bios[1..], n - bios[0].size, error)
  }

  // ---------------------------------------------------------- exactly a prefix is gone

  /** The vectors left when n bytes are gone. */
  function Left(vs: seq<Vec>, n: nat): seq<Vec> {
    if n == 0 || vs == [] then vs
    else if vs[0].len > n then [Shortened(vs[0], n)] + vs[1..]
    else Left(vs[1..], n - vs[0].len)
  }

  lemma {:induction false} LeftIsCovered(vs: seq<Vec>, n: nat)
    requires n < Length(vs)
    ensures var k := Covered(vs, n); var r := n - Length(vs[..k]);
            k < |vs| && 0 <= r <= vs[k].len && Left(vs, n) == [Shortened(vs[k], r)] + vs[k + 1..]
  {
    CoveredFits(vs, n);
    var k := Covered(vs, n);
    if k == 0 {
      assert n == 0 ==> Shortened(vs[0], 0) == vs[0];
    } else {
      LeftIsCovered(vs[1..], n - vs[0].len);
      assert vs[..k][1..] == vs[1..][..k - 1];
      assert vs[1..][k..] == vs[k + 1..];
    }
  }

  lemma {:induction false} LeftBytes(vs: seq<Vec>, n: nat)
    requires n <= |VecsBytes(vs)|
    ensures VecsBytes(Left(vs, n)) == VecsBytes(vs)[n..]
  {
    if n == 0 || vs == [] {
    } else if vs[0].len > n {
      assert VecBytes(Shortened(vs[0], n)) == VecBytes(vs[0])[n..];
    } else {
      LeftBytes(vs[1..], n - vs[0].len);
      assert VecsBytes(vs)[n..] == VecsBytes(vs[1..])[n - vs[0].len..];
    }
  }

  lemma {:induction false} LeftTwice(vs: seq<Vec>, n1: nat, n2: nat)
    ensures Left(Left(vs, n1), n2) == Left(vs, n1 + n2)
  {
    if n1 == 0 || vs == [] {
    } else if vs[0].len > n1 {
      assert ([Shortened(vs[0], n1)] + vs[1..])[1..] == vs[1..];
    } else {
      LeftTwice(vs[1..], n1 - vs[0].len, n2);
    }
  }

  /** The live part of a bio that advanced. */
  lemma AdvancedLive(b: Bio, n: nat, error: int)
    requires Sized(b) && n < b.size
    ensures var a := Advanced(b, n, error);
            |a.vecs| == |b.vecs| && a.idx <= |a.vecs| && a.vecs[a.idx..] == Left(b.vecs[b.idx..], n)
  {
    if n > 0 {
      var vs := b.vecs[b.idx..];
      LengthIsBytes(vs);
      LeftIsCovered(vs, n);
      var k, a := Covered(vs, n), Advanced(b, n, error);
      hide Left, Covered, Length;
      assert a.vecs[a.idx..] == [Shortened(vs[k], n - Length(vs[..k]))] + vs[k + 1..];
    }
  }

  lemma AdvancedBytes(b: Bio, n: nat, error: int)
    requires Sized(b) && n < b.size
    ensures Sized(Advanced(b, n, error)) && BioBytes(Advanced(b, n, error)) == BioBytes(b)[n..]
  {
    AdvancedLive(b, n, error);
    LeftBytes(b.vecs[b.idx..], n);
  }

  lemma BytesCons(b: Bio, tail: seq<Bio>)
    requires Sized(b) && AllSized(tail)
    ensures AllSized([b] + tail) && Bytes([b] + tail) == BioBytes(b) + Bytes(tail)
  {
    assert ([b] + tail)[1..] == tail;
  }

  /** What is left is the old byte sequence minus its first n bytes. */
  lemma {:induction false} RestIsSuffix(bios: seq<Bio>, n: nat, error: int)
    requires AllSized(bios)
    ensures var r := Rest(bios, n, error);
            AllSized(r) && Bytes(r) == if n <= |Bytes(bios)| then Bytes(bios)[n..] else []
  {
    if bios != [] {
      hide Bytes, BioBytes, Advanced;
      var b, tail := bios[0], bios[1..];
      assert bios == [b] + tail;
      BytesCons(b, tail);
      if n < b.size {
        AdvancedBytes(b, n, error);
        BytesCons(Advanced(b, n, error), tail);
      } else if n > b.size {
        RestIsSuffix(tail, n - b.size, error);
      }
    }
  }

  // ------------------------------------------------------------- which bios are ended

  function Ids(bios: seq<Bio>): seq<nat> {
    seq(|bios|, i requires 0 <= i < |bios| => bios[i].id)
  }

  function EndedIds(es: seq<Ended>): seq<nat> {
    seq(|es|, i requires 0 <= i < |es| => es[i].id)
  }

  /** No bio is lost or ended twice: those ended, in chain order, and those left make up the chain. */
  lemma {:induction false} BiosConserved(bios: seq<Bio>, n: nat, error: int)
    requires AllSized(bios)
    ensures EndedIds(EndedBios(bios, n, error)) + Ids(Rest(bios, n, error)) == Ids(bios)
  {
    hide Ids, EndedIds, Advanced, Sized, EndError;
    if bios == [] {
      IdsOfNone();
    } else {
      var b, tail := bios[0], bios[1..];
      assert bios == [b] + tail;
      IdsCons(b, tail);
      IdsOfNone();
      if n < b.size {
        AdvancedFields(b, n, error);
        IdsCons(Advanced(b, n, error), tail);
      } else if n == b.size {
        EndedIdsCons(Ended(b.id, EndError(b, error)), []);
      } else {
        BiosConserved(tail, n - b.size, error);
        EndedIdsCons(Ended(b.id, EndError(b, error)), EndedBios(tail, n - b.size, error));
      }
    }
  }

  lemma IdsOfNone()
    ensures Ids([]) == [] && EndedIds([]) == []
  {
  }

  lemma IdsCons(b: Bio, tail: seq<Bio>)
    ensures Ids([b] + tail) == [b.id] + Ids(tail)
  {
  }

  lemma EndedIdsCons(e: Ended, es: seq<Ended>)
    ensures EndedIds([e] + es) == [e.id] + EndedIds(es)
  {
  }

  /** Where bio i of the chain ends. */
  function EndOf(bios: seq<Bio>, i: nat): nat
    requires i <= |bios|
  {
    if i == 0 then 0 else EndOf(bios, i - 1) + bios[i - 1].size
  }

  lemma {:induction false} EndOfTail(bios: seq<Bio>, i: nat)
    requires 0 < i <= |bios|
    ensures EndOf(bios, i) == bios[0].size + EndOf(bios[1..], i - 1)
  {
    if i > 1 {
      EndOfTail(bios, i - 1);
    }
  }

  /** Only the first bio of a chain may be empty: an empty barrier. */
  predicate NoEmptyAfterFirst(bios: seq<Bio>) {
    forall i | 1 <= i < |bios| :: bios[i].size > 0
  }

  lemma EndedUnfold(bios: seq<Bio>, n: nat, error: int)
    requires AllSized(bios) && bios != []
    ensures AllSized(bios[1..])
    ensures |EndedBios(bios, n, error)| ==
            if n < bios[0].size then 0
            else if n == bios[0].size then 1
            else 1 + |EndedBios(bios[1..], n - bios[0].size, error)|
  {
  }

  /** Exactly which bios are ended: those the n bytes reach the end of, but no empty one once they are used up. */
  lemma {:induction false} EndedIffCovered(bios: seq<Bio>, n: nat, error: int, i: nat)
    requires AllSized(bios) && i < |bios|
    ensures i < |EndedBios(bios, n, error)| <==> EndOf(bios, i + 1) <= n && (i == 0 || EndOf(bios, i) < n)
  {
    hide EndedBios, AllSized, EndOf;
    EndedUnfold(bios, n, error);
    EndOfTail(bios, i + 1);
    EndOfNone(bios[1..]);
    if i > 0 {
      EndOfTail(bios, i);
      if n > bios[0].size {
        EndedIffCovered(bios[1..], n - bios[0].size, error, i - 1);
      }
    }
  }

  /** Without empty bios behind the first: exactly those the n bytes reach the end of. */
  lemma EndedIffReached(bios: seq<Bio>, n: nat, error: int, i: nat)
    requires AllSized(bios) && NoEmptyAfterFirst(bios) && i < |bios|
    ensures i < |EndedBios(bios, n, error)| <==> EndOf(bios, i + 1) <= n
  {
    hide EndedBios, AllSized;
    EndedIffCovered(bios, n, error, i);
  }

  lemma EndOfNone(bios: seq<Bio>)
    ensures EndOf(bios, 0) == 0
  {
  }

  lemma {:induction false} BytesLength(bios: seq<Bio>)
    requires AllSized(bios)
    ensures |Bytes(bios)| == EndOf(bios, |bios|)
  {
    if bios != [] {
      BytesLength(bios[1..]);
      EndOfTail(bios, |bios|);
    }
  }

  /**
   When the call returns 0.  It stops as soon as the count is used up, so an empty bio at the end
   of the chain is left behind if the count is met exactly.
   */
  lemma {:induction false} DoneIff(bios: seq<Bio>, n: nat, error: int)
    requires AllSized(bios) && bios != []
    ensures Rest(bios, n, error) == [] <==>
              n > |Bytes(bios)| || (n == |Bytes(bios)| && (|bios| == 1 || bios[|bios| - 1].size > 0))
  {
    if |bios| == 1 {
      assert Bytes(bios[1..]) == [];
    } else if n > bios[0].size {
      DoneIff(bios[1..], n - bios[0].size, error);
      assert |bios| == 2 ==> bios[1..][1..] == [];
    } else if n == bios[0].size {
      LastCounts(bios[1..]);
    }
  }

  lemma {:induction false} LastCounts(bios: seq<Bio>)
    requires AllSized(bios) && bios != []
    ensures |Bytes(bios)| >= bios[|bios| - 1].size
  {
    if |bios| > 1 {
      LastCounts(bios[1..]);
    }
  }

  /** On the chains the block layer builds: 0 exactly if nothing remains. */
  lemma DoneIffNothingRemains(bios: seq<Bio>, n: nat, error: int)
    requires AllSized(bios) && NoEmptyAfterFirst(bios)
    ensures Rest(bios, n, error) == [] <==> n >= |Bytes(bios)|
  {
    if bios != [] {
      DoneIff(bios, n, error);
    }
  }

  // -------------------------------------------------------- in two steps or in one

  /** A bio as far as it is still to be read: vectors before bi_idx are dead. */
  datatype Live = Live(id: nat, vecs: seq<Vec>, idx: nat, size: nat, uptodate: bool)

  function LiveOf(b: Bio): Live
    requires b.idx <= |b.vecs|
  {
    Live(b.id, b.vecs[b.idx..], b.idx, b.size, b.uptodate)
  }

  predicate SameBio(a: Bio, b: Bio) {
    a.idx <= |a.vecs| && b.idx <= |b.vecs| && LiveOf(a) == LiveOf(b)
  }

  predicate SameChain(a: seq<Bio>, b: seq<Bio>) {
    |a| == |b| && forall i | 0 <= i < |a| :: SameBio(a[i], b[i])
  }

  lemma AdvancedFields(b: Bio, n: nat, error: int)
    requires Sized(b) && n < b.size
    ensures var a := Advanced(b, n, error);
            && Sized(a) && a.id == b.id && a.size == b.size - n && a.idx == |b.vecs| - |a.vecs[a.idx..]|
            && a.uptodate == (b.uptodate && (n == 0 || error == 0)) && |a.vecs| == |b.vecs|
            && a.vecs[a.idx..] == Left(b.vecs[b.idx..], n)
  {
    AdvancedBytes(b, n, error);
    AdvancedLive(b, n, error);
    hide Left, Covered, BioBytes;
  }

  lemma AdvancedTwice(b: Bio, n1: nat, n2: nat, error: int)
    requires Sized(b) && n1 + n2 < b.size
    ensures Sized(Advanced(b, n1, error)) && Advanced(b, n1, error).size == b.size - n1
    ensures SameBio(Advanced(Advanced(b, n1, error), n2, error), Advanced(b, n1 + n2, error))
  {
    hide Left, Advanced, BioBytes;
    AdvancedFields(b, n1, error);
    AdvancedFields(Advanced(b, n1, error), n2, error);
    AdvancedFields(b, n1 + n2, error);
    LeftTwice(b.vecs[b.idx..], n1, n2);
  }

  /** bi_sector drops the odd bytes of every call: two calls leave it as one does exactly if these make no sector. */
  lemma SectorSplitsIff(b: Bio, n1: nat, n2: nat, error: int)
    requires Sized(b) && n1 + n2 < b.size
    ensures Sized(Advanced(b, n1, error)) && Advanced(b, n1, error).size == b.size - n1
    ensures Advanced(Advanced(b, n1, error), n2, error).sector == Advanced(b, n1 + n2, error).sector <==>
            n1 % SECTOR + n2 % SECTOR < SECTOR
  {
    hide Left, BioBytes, Covered;
    AdvancedFields(b, n1, error);
    AdvancedSector(b, n1, error);
    AdvancedSector(Advanced(b, n1, error), n2, error);
    AdvancedSector(b, n1 + n2, error);
    hide Advanced;
  }

  lemma AdvancedSector(b: Bio, n: nat, error: int)
    requires Sized(b) && n < b.size
    ensures Advanced(b, n, error).sector == b.sector + n / SECTOR
  {
  }

  lemma SameSelf(bios: seq<Bio>)
    requires AllSized(bios)
    ensures SameChain(bios, bios)
  {
  }

  /** Unfolding Rest and EndedBios once, for a chain given by its head and tail. */
  lemma HeadTail(b: Bio, tail: seq<Bio>, n: nat, error: int)
    requires AllSized([b] + tail)
    ensures AllSized(tail) && Sized(b)
    ensures Rest([b] + tail, n, error) ==
            if n < b.size then [Advanced(b, n, error)] + tail
            else if n == b.size then tail else Rest(tail, n - b.size, error)
    ensures EndedBios([b] + tail, n, error) ==
            if n < b.size then []
            else [Ended(b.id, EndError(b, error))]
                 + if n == b.size then [] else EndedBios(tail, n - b.size, error)
  {
    var bios := [b] + tail;
    assert bios[0] == b && bios[1..] == tail;
    forall i | 0 <= i < |tail| ensures Sized(tail[i]) {
      assert tail[i] == bios[i + 1];
    }
  }

  lemma SameCons(a: Bio, b: Bio, tail: seq<Bio>)
    requires SameBio(a, b) && AllSized(tail)
    ensures SameChain([a] + tail, [b] + tail)
  {
  }

  lemma SplitInFirst(b: Bio, tail: seq<Bio>, n1: nat, n2: nat, error: int)
    requires Sized(b) && AllSized([b] + tail) && n1 < b.size && AllSized([Advanced(b, n1, error)] + tail)
    ensures var r := [Advanced(b, n1, error)] + tail;
            && SameChain(Rest(r, n2, error), Rest([b] + tail, n1 + n2, error))
            && EndedBios(r, n2, error) == EndedBios([b] + tail, n1 + n2, error)
  {
    hide Rest, EndedBios, AllSized, SameBio, SameChain, Sized, Advanced;
    var a := Advanced(b, n1, error);
    AdvancedFields(b, n1, error);
    HeadTail(a, tail, n2, error);
    HeadTail(b, tail, n1 + n2, error);
    if n1 + n2 < b.size {
      AdvancedTwice(b, n1, n2, error);
      SameCons(Advanced(a, n2, error), Advanced(b, n1 + n2, error), tail);
    } else {
      assert EndError(a, error) == EndError(b, error);
      if n1 + n2 == b.size {
        SameSelf(tail);
      } else {
        RestIsSuffix(tail, n1 + n2 - b.size, error);
        SameSelf(Rest(tail, n1 + n2 - b.size, error));
      }
    }
  }

  lemma RestNothing(bios: seq<Bio>, error: int)
    requires AllSized(bios) && (bios != [] ==> bios[0].size > 0)
    ensures Rest(bios, 0, error) == bios && EndedBios(bios, 0, error) == []
  {
    if bios != [] {
      assert [bios[0]] + bios[1..] == bios;
    }
  }

  ghost predicate SplitsAt(bios: seq<Bio>, n1: nat, n2: nat, error: int)
    requires AllSized(bios)
  {
    var first := Rest(bios, n1, error);
    && AllSized(first)
    && SameChain(Rest(first, n2, error), Rest(bios, n1 + n2, error))
    && EndedBios(bios, n1, error) + EndedBios(first, n2, error) == EndedBios(bios, n1 + n2, error)
  }

  lemma SplitPastFirst(b: Bio, tail: seq<Bio>, n1: nat, n2: nat, error: int)
    requires AllSized([b] + tail) && n1 > b.size && AllSized(tail) && SplitsAt(tail, n1 - b.size, n2, error)
    ensures SplitsAt([b] + tail, n1, n2, error)
  {
    hide Rest, EndedBios, AllSized, SameChain, Sized, EndError, Advanced;
    HeadTail(b, tail, n1, error);
    HeadTail(b, tail, n1 + n2, error);
    var first := Rest(tail, n1 - b.size, error);
    Assoc([Ended(b.id, EndError(b, error))], EndedBios(tail, n1 - b.size, error), EndedBios(first, n2, error));
  }

  lemma Assoc(a: seq<Ended>, b: seq<Ended>, c: seq<Ended>)
    ensures a + b + c == a + (b + c)
  {
  }

  lemma SplitAtEnd(b: Bio, tail: seq<Bio>, n2: nat, error: int)
    requires AllSized([b] + tail) && AllSized(tail) && n2 > 0
    ensures SplitsAt([b] + tail, b.size, n2, error)
  {
    hide Rest, EndedBios, AllSized, SameChain, Sized, EndError, Advanced, Bytes, BioBytes;
    HeadTail(b, tail, b.size, error);
    HeadTail(b, tail, b.size + n2, error);
    RestIsSuffix(tail, n2, error);
    SameSelf(Rest(tail, n2, error));
    var e := [Ended(b.id, EndError(b, error))];
    assert e + [] == e;
  }

  lemma SplitInside(b: Bio, tail: seq<Bio>, n1: nat, n2: nat, error: int)
    requires AllSized([b] + tail) && Sized(b) && n1 < b.size
    ensures SplitsAt([b] + tail, n1, n2, error)
  {
    hide Rest, EndedBios, SameChain, Advanced, Sized;
    RestIsSuffix([b] + tail, n1, error);
    HeadTail(b, tail, n1, error);
    SplitInFirst(b, tail, n1, n2, error);
  }

  /** With bytes to go the second call ends the same bios and leaves the same chain as one call would. */
  lemma {:induction false} SplitAnywhere(bios: seq<Bio>, n1: nat, n2: nat, error: int)
    requires AllSized(bios) && n2 > 0
    ensures SplitsAt(bios, n1, n2, error)
  {
    if bios == [] {
      SameSelf([]);
    } else {
      hide SplitsAt, AllSized, Sized;
      var b, tail := bios[0], bios[1..];
      Uncons(bios);
      if n1 < b.size {
        SplitInside(b, tail, n1, n2, error);
      } else if n1 > b.size {
        SplitAnywhere(tail, n1 - b.size, n2, error);
        SplitPastFirst(b, tail, n1, n2, error);
      } else {
        SplitAtEnd(b, tail, n2, error);
      }
    }
  }

  lemma Uncons(bios: seq<Bio>)
    requires AllSized(bios) && bios != []
    ensures bios == [bios[0]] + bios[1..] && AllSized(bios[1..]) && Sized(bios[0])
  {
  }

  lemma NothingLeft(n: nat, error: int)
    ensures AllSized([]) && Rest([], n, error) == [] && EndedBios([], n, error) == []
  {
  }

  /** The first n bytes end right before an empty bio. */
  ghost predicate EmptyAt(bios: seq<Bio>, n: nat) {
    exists i | 1 <= i < |bios| :: EndOf(bios, i) == n && bios[i].size == 0
  }

  lemma EmptyAtTail(bios: seq<Bio>, n: nat)
    requires bios != [] && n > bios[0].size
    ensures EmptyAt(bios, n) <==> EmptyAt(bios[1..], n - bios[0].size)
  {
    hide EndOf;
    var tail := bios[1..];
    if EmptyAt(bios, n) {
      var i :| 1 <= i < |bios| && EndOf(bios, i) == n && bios[i].size == 0;
      EndOfTail(bios, i);
      EndOfNone(tail);
      assert tail[i - 1] == bios[i];
    }
    if EmptyAt(tail, n - bios[0].size) {
      var i :| 1 <= i < |tail| && EndOf(tail, i) == n - bios[0].size && tail[i].size == 0;
      EndOfTail(bios, i + 1);
      assert bios[i + 1] == tail[i];
    }
  }

  lemma {:induction false} EndOfGrows(bios: seq<Bio>, i: nat, j: nat)
    requires i <= j <= |bios|
    ensures EndOf(bios, i) <= EndOf(bios, j)
  {
    if i < j {
      EndOfGrows(bios, i, j - 1);
    }
  }

  lemma EmptyAtFirst(bios: seq<Bio>, n: nat)
    requires bios != [] && n <= bios[0].size
    ensures EmptyAt(bios, n) <==> n == bios[0].size && |bios| > 1 && bios[1].size == 0
  {
    hide EndOf;
    EndOfTail(bios, 1);
    EndOfNone(bios[1..]);
    if EmptyAt(bios, n) {
      var i :| 1 <= i < |bios| && EndOf(bios, i) == n && bios[i].size == 0;
      EndOfGrows(bios, 1, i);
      if i > 1 {
        EndOfTail(bios, 2);
        EndOfTail(bios[1..], 1);
        EndOfNone(bios[1..][1..]);
        EndOfGrows(bios, 2, i);
      }
    }
    if n == bios[0].size && |bios| > 1 && bios[1].size == 0 {
      assert EndOf(bios, 1) == n;
    }
  }

  /** A call leaves an empty bio in front exactly if its bytes end right before one. */
  lemma {:induction false} LeavesEmptyIff(bios: seq<Bio>, n: nat, error: int)
    requires AllSized(bios)
    ensures (var r := Rest(bios, n, error); r != [] && r[0].size == 0) <==> EmptyAt(bios, n)
  {
    if bios != [] {
      if n > bios[0].size {
        hide EmptyAt, EndOf;
        EmptyAtTail(bios, n);
        LeavesEmptyIff(bios[1..], n - bios[0].size, error);
      } else {
        hide EmptyAt, EndOf;
        EmptyAtFirst(bios, n);
        assert n < bios[0].size ==> Advanced(bios[0], n, error).size == bios[0].size - n;
      }
    }
  }

  /** A call with no bytes changes something exactly if an empty bio is in front. */
  lemma NoBytesIff(bios: seq<Bio>, n1: nat, error: int)
    requires AllSized(bios)
    ensures SplitsAt(bios, n1, 0, error) <==> (var r := Rest(bios, n1, error); r == [] || r[0].size > 0)
  {
    hide Rest, EndedBios, SameChain, Sized, AllSized, Bytes;
    RestIsSuffix(bios, n1, error);
    var r := Rest(bios, n1, error);
    SameSelf(r);
    if r == [] || r[0].size > 0 {
      RestNothing(r, error);
      assert EndedBios(bios, n1, error) + [] == EndedBios(bios, n1, error);
    } else {
      Uncons(r);
      HeadTail(r[0], r[1..], 0, error);
      assert EndedBios(r, 0, error) != [];
    }
  }

  /**
   Completing n1 bytes and then n2 ends the same bios and leaves the same chain as completing
   n1 + n2, on every chain, except exactly if the second call brings no bytes and the first one
   ended right before an empty bio.
   */
  lemma TwoStepsAreOne(bios: seq<Bio>, n1: nat, n2: nat, error: int)
    requires AllSized(bios)
    ensures SplitsAt(bios, n1, n2, error) <==> n2 > 0 || !EmptyAt(bios, n1)
  {
    hide SplitsAt, EmptyAt, Rest;
    if n2 > 0 {
      SplitAnywhere(bios, n1, n2, error);
    } else {
      NoBytesIff(bios, n1, error);
      LeavesEmptyIff(bios, n1, error);
    }
  }

  /** Completion can be split at will exactly on chains with no empty bio after the first. */
  lemma SplitsIff(bios: seq<Bio>, error: int)
    requires AllSized(bios)
    ensures (forall n1: nat, n2: nat :: SplitsAt(bios, n1, n2, error)) <==> NoEmptyAfterFirst(bios)
  {
    hide SplitsAt, EndOf;
    forall n1: nat, n2: nat ensures SplitsAt(bios, n1, n2, error) <==> n2 > 0 || !EmptyAt(bios, n1) {
      TwoStepsAreOne(bios, n1, n2, error);
    }
    if !NoEmptyAfterFirst(bios) {
      var i :| 1 <= i < |bios| && bios[i].size == 0;
      assert EmptyAt(bios, EndOf(bios, i));
      assert !SplitsAt(bios, EndOf(bios, i), 0, error);
    }
  }

  // ------------------------------------------------------------------ the loop itself

  /** The position fields of struct request that blk_recalc_rq_sectors keeps. */
  datatype Sectors = Sectors(hardSector: int, hardNr: int, sector: int, nr: int, hardCur: int, cur: int)

  /** blk_recalc_rq_sectors; cur is bio_cur_sectors of what is now the first bio. */
  function Recalc(p: Sectors, n: int, cur: int): Sectors {
    var p1 := p.(hardSector := p.hardSector + n, hardNr := p.hardNr - n);
    var p2 := if p1.nr >= p1.hardNr && p1.sector <= p1.hardSector
      then p1.(sector := p1.hardSector, nr := p1.hardNr, hardCur := cur, cur := cur) else p1;
    if p2.nr < p2.cur then p2.(nr := p2.cur) else p2
  }

  /** bio_cur_sectors. */
  function CurSectors(b: Bio): int {
    (if b.idx < |b.vecs| then b.vecs[b.idx].len else b.size) / SECTOR
  }

  lemma {:induction false} LengthPrefix(vs: seq<Vec>, k: nat)
    requires k <= |vs|
    ensures Length(vs[..k]) <= Length(vs)
    ensures k < |vs| ==> Length(vs[..k + 1]) == Length(vs[..k]) + vs[k].len
  {
    if k == 0 {
      assert |vs| > 0 ==> vs[..1][1..] == [];
    } else {
      LengthPrefix(vs[1..], k - 1);
      assert vs[..k][1..] == vs[1..][..k - 1];
      assert k < |vs| ==> vs[..k + 1][1..] == vs[1..][..k];
    }
  }

  /** Inside a bio: next vectors, bioBytes long, are behind the walk, and n bytes are still to go. */
  ghost predicate Inside(b: Bio, next: nat, bioBytes: nat, n: nat) {
    && Sized(b) && b.idx + next <= |b.vecs|
    && (var vs := b.vecs[b.idx..];
        bioBytes == Length(vs[..next]) && Covered(vs, bioBytes + n) == next + Covered(vs[next..], n))
  }

  lemma InsideStart(b: Bio, n: nat)
    requires Sized(b)
    ensures Inside(b, 0, 0, n)
  {
  }

  lemma InsideVec(b: Bio, next: nat, bioBytes: nat, n: nat)
    requires Inside(b, next, bioBytes, n) && bioBytes + n < b.size
    ensures b.idx + next < |b.vecs|
  {
    var vs := b.vecs[b.idx..];
    LengthIsBytes(vs);
    assert vs[..|vs|] == vs;
  }

  lemma InsideStep(b: Bio, next: nat, bioBytes: nat, n: nat)
    requires Inside(b, next, bioBytes, n) && n > 0 && b.idx + next < |b.vecs| && b.vecs[b.idx + next].len <= n
    ensures var len := b.vecs[b.idx + next].len; Inside(b, next + 1, bioBytes + len, n - len)
  {
    var vs := b.vecs[b.idx..];
    LengthPrefix(vs, next);
    assert vs[next..][0] == vs[next] && vs[next..][1..] == vs[next + 1..];
  }

  /** The walk has arrived: it stands in vector next, n bytes deep. */
  lemma InsideArrived(b: Bio, next: nat, bioBytes: nat, n: nat, error: int)
    requires Inside(b, next, bioBytes, n) && 0 < bioBytes + n < b.size && b.idx + next < |b.vecs|
    requires n == 0 || n < b.vecs[b.idx + next].len
    ensures var i, m := b.idx + next, bioBytes + n;
            n <= b.vecs[i].len &&
            Advanced(b, m, error) ==
            b.(idx := i, vecs := b.vecs[i := Shortened(b.vecs[i], n)], size := b.size - m,
               sector := b.sector + m / SECTOR, uptodate := b.uptodate && error == 0)
  {
    var vs := b.vecs[b.idx..];
    assert Covered(vs[next..], n) == 0;
  }

  /** How the loop may end with a bio left: n bytes into its vector next, m bytes into it in all. */
  ghost predicate Stopped(bios: seq<Bio>, next: nat, m: nat, n: nat, error: int, rest: seq<Bio>) {
    && bios != []
    && if m == 0 then bios == rest
       else
         var b := bios[0];
         && Sized(b) && n <= m < b.size && b.idx + next < |b.vecs| && n <= b.vecs[b.idx + next].len
         && Advanced(b, m, error) ==
            b.(idx := b.idx + next, vecs := b.vecs[b.idx + next := Shortened(b.vecs[b.idx + next], n)],
               size := b.size - m, sector := b.sector + m / SECTOR, uptodate := b.uptodate && error == 0)
         && rest == [Advanced(b, m, error)] + bios[1..]
  }

  lemma StopsInside(bios: seq<Bio>, next: nat, bioBytes: nat, n: nat, error: int)
    requires AllSized(bios) && bios != [] && Inside(bios[0], next, bioBytes, n) && bioBytes + n < bios[0].size
    requires bios[0].idx + next < |bios[0].vecs| && (n == 0 || n < bios[0].vecs[bios[0].idx + next].len)
    ensures Stopped(bios, next, bioBytes + n, n, error, Rest(bios, bioBytes + n, error))
    ensures EndedBios(bios, bioBytes + n, error) == []
  {
    hide Rest, EndedBios, Inside, Advanced, Sized;
    assert bios == [bios[0]] + bios[1..];
    HeadTail(bios[0], bios[1..], bioBytes + n, error);
    if bioBytes + n > 0 {
      InsideArrived(bios[0], next, bioBytes, n, error);
    } else {
      RestNothing(bios, error);
    }
  }

  class Request {
    var bios: seq<Bio>
    var p: Sectors
    const fs: bool
    ghost var ended: seq<Ended>

    /** req_bio_endio on the first bio. */
    method EndIo(n: nat, error: int)
      requires bios != [] && n <= bios[0].size
      modifies this`bios, this`ended
      ensures |bios| == |old(bios)| && bios[1..] == old(bios)[1..]
      ensures var b := old(bios)[0];
              && bios[0] == b.(size := b.size - n, sector := b.sector + n / SECTOR,
                               uptodate := b.uptodate && error == 0)
              && ended == old(ended) + if n == b.size then [Ended(b.id, EndError(b, error))] else []
    {
      var b, err := bios[0], error;
      if error != 0 {
        b := b.(uptodate := false);
      } else if !b.uptodate {
        err := EIO;
      }
      b := b.(size := b.size - n, sector := b.sector + n / SECTOR);
      if b.size == 0 {
        ended := ended + [Ended(b.id, err)];
      }
      bios := bios[0 := b];
    }

    /** The loop of __end_that_request_first. */
    method Walk(error: int, nrBytes: nat) returns (next: nat, bioBytes: nat, n: nat, total: nat)
      requires AllSized(bios)
      modifies this`bios, this`ended
      ensures ended == old(ended) + EndedBios(old(bios), nrBytes, error)
      ensures if bios == [] then Rest(old(bios), nrBytes, error) == []
              else Stopped(bios, next, bioBytes, n, error, Rest(old(bios), nrBytes, error)) && total == nrBytes
    {
      hide Rest, EndedBios, Inside, Stopped, Covered, Sized, Advanced, EndError, BioBytes, Length, Shortened;
      n, total, bioBytes, next := nrBytes, 0, 0, 0;
      ghost var rest, ends := Rest(bios, nrBytes, error), EndedBios(bios, nrBytes, error);
      if bios == [] {
        NothingLeft(n, error);
        return;
      }
      InsideStart(bios[0], n);
      while bios != []
        invariant AllSized(bios) && total + n == nrBytes && bioBytes <= total
        invariant bios == [] ==> rest == [] && ended == old(ended) + ends
        invariant bios != [] ==>
            && Inside(bios[0], next, bioBytes, n) && (if next == 0 then bioBytes == 0 else bioBytes + n < bios[0].size && n > 0)
            && rest == Rest(bios, bioBytes + n, error)
            && ended + EndedBios(bios, bioBytes + n, error) == old(ended) + ends
        decreases |bios|, if bios == [] then 0 else |bios[0].vecs| - next
      {
        ghost var was := bios;
        var b := bios[0];
        assert was == [b] + was[1..];
        if n >= b.size {
          assert next == 0 && bioBytes == 0;
          HeadTail(b, was[1..], n, error);
          EndIo(b.size, error);
          bios := bios[1..];
          total, n, next, bioBytes := total + b.size, n - b.size, 0, 0;
          if bios != [] {
            if n == 0 {
              ArrivedBetween(bios, error);
              break;
            }
            InsideStart(bios[0], n);
          } else {
            NothingLeft(n, error);
          }
        } else {
          InsideVec(b, next, bioBytes, n);
          var len := b.vecs[b.idx + next].len;
          if len > n {
            StopsInside(bios, next, bioBytes, n, error);
            bioBytes, total := bioBytes + n, total + n;
            break;
          }
          if n > 0 {
            InsideStep(b, next, bioBytes, n);
          } else {
            StopsInside(bios, next, bioBytes, n, error);
            StopsAnywhere(bios, next, n, error, rest);
          }
          next := next + 1;
          bioBytes, total, n := bioBytes + len, total + len, n - len;
          if n == 0 {
            if bioBytes > 0 {
              InsideVec(b, next, bioBytes, n);
              StopsInside(bios, next, bioBytes, n, error);
            }
            break;
          }
        }
      }
    }

    /** blk_recalc_rq_sectors. */
    method RecalcSectors(n: int)
      requires bios != []
      modifies this`p
      ensures p == if fs then Recalc(old(p), n, CurSectors(bios[0])) else old(p)
    {
      if fs {
        p := p.(hardSector := p.hardSector + n, hardNr := p.hardNr - n);
        if p.nr >= p.hardNr && p.sector <= p.hardSector {
          p := p.(sector := p.hardSector, nr := p.hardNr, hardCur := CurSectors(bios[0]));
          p := p.(cur := p.hardCur);
        }
        if p.nr < p.cur {
          p := p.(nr := p.cur);
        }
      }
    }

    /** __end_that_request_first. */
    method EndFirst(error: int, nrBytes: nat) returns (more: bool)
      requires AllSized(bios)
      modifies this
      ensures bios == Rest(old(bios), nrBytes, error)
      ensures ended == old(ended) + EndedBios(old(bios), nrBytes, error)
      ensures more <==> bios != []
      ensures p == if more && fs then Recalc(old(p), nrBytes / SECTOR, CurSectors(bios[0])) else old(p)
    {
      hide Rest, EndedBios, Sized, Advanced, Recalc, CurSectors;
      var next, bioBytes, n, total := Walk(error, nrBytes);
      if bios == [] {
        return false;
      }
      if bioBytes != 0 {
        EndIo(bioBytes, error);
        var b := bios[0];
        b := b.(idx := b.idx + next);
        b := b.(vecs := b.vecs[b.idx := Shortened(b.vecs[b.idx], n)]);
        bios := [b] + bios[1..];
      }
      RecalcSectors(total / SECTOR);
      return true;
    }
  }

  lemma ArrivedBetween(bios: seq<Bio>, error: int)
    requires bios != []
    ensures Stopped(bios, 0, 0, 0, error, bios)
  {
  }

  lemma StopsAnywhere(bios: seq<Bio>, next: nat, n: nat, error: int, rest: seq<Bio>)
    requires Stopped(bios, next, 0, n, error, rest)
    ensures Stopped(bios, next + 1, 0, n, error, rest)
  {
  }

  /**
   The hard position goes on by n.  The driver's own is taken along unless the driver is ahead of it already, and never
   says less is left than in the first segment.
   */
  lemma RecalcFollows(p: Sectors, n: int, cur: int)
    ensures var r := Recalc(p, n, cur);
            && r.hardSector == p.hardSector + n && r.hardNr == p.hardNr - n && r.nr >= r.cur
            && if p.sector <= r.hardSector && p.nr >= r.hardNr
               then r.sector == r.hardSector && r.cur == r.hardCur == cur && (r.nr == r.hardNr || r.nr == cur > r.hardNr)
               else r.sector == p.sector && r.cur == p.cur && r.hardCur == p.hardCur && (r.nr == p.nr || r.nr == p.cur > p.nr)
  {
  }

  /** Sizes in whole sectors: the position fields tell what is left. */
  ghost predicate Positioned(bios: seq<Bio>, p: Sectors)
    requires AllSized(bios)
  {
    p.hardNr * SECTOR == |Bytes(bios)| && p.sector == p.hardSector && p.nr == p.hardNr && p.cur <= p.nr
  }

  /** After n bytes, a whole number of sectors, the request starts n bytes later, ends where it did, and is not botched. */
  lemma RecalcKeepsPosition(bios: seq<Bio>, p: Sectors, n: nat, error: int)
    requires AllSized(bios) && Positioned(bios, p) && n % SECTOR == 0 && n < |Bytes(bios)|
    requires Rest(bios, n, error) != []
    ensures var rest := Rest(bios, n, error);
            && AllSized(rest)
            && var p' := Recalc(p, n / SECTOR, CurSectors(rest[0]));
               && Positioned(rest, p') && p'.cur == CurSectors(rest[0])
               && p'.sector * SECTOR == p.sector * SECTOR + n
               && p'.sector + p'.nr == p.sector + p.nr
  {
    RestIsSuffix(bios, n, error);
    var rest := Rest(bios, n, error);
    hide Rest, Sized;
    FirstVecFits(rest);
    assert n == n / SECTOR * SECTOR;
  }

  lemma FirstVecFits(bios: seq<Bio>)
    requires AllSized(bios) && bios != []
    ensures CurSectors(bios[0]) * SECTOR <= |Bytes(bios)|
  {
    var b := bios[0];
    var vs := b.vecs[b.idx..];
    LengthIsBytes(vs);
    assert vs != [] ==> vs[0].len <= Length(vs);
  }
}
