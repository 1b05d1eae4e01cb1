/**
 Merging bios into queued requests: the merge hash of block/elevator.c, the merge arms of
 __make_request in block/blk-core.c, and attempt_merge with the size limits of block/blk-merge.c.
 The bucket function h is arbitrary.
 */
module Merging {
  import opened SortList

  /** What must agree to merge: data direction, disk and integrity protection. */
  datatype Kind = Kind(write: bool, disk: nat, integrity: bool)

  datatype Bio = Bio(id: nat, sector: nat, nr: nat, kind: Kind, discard: bool, segs: nat)

  /** nomerge: any of RQ_NOMERGE_FLAGS. */
  datatype Req = Req(sector: nat, nr: nat, bios: seq<Bio>, kind: Kind, special: bool, nomerge: bool, segs: nat) {
    function End(): nat { sector + nr }
  }

  /** max_sectors, max_phys_segments, max_hw_segments. */
  datatype Conf = Conf(maxSectors: nat, maxPhys: nat, maxHw: nat)

  /** The requests inside the scheduler, the chains of the merge hash by bucket, and last_merge. */
  datatype St = St(reqs: map<nat, Req>, hash: map<nat, seq<nat>>, last: Option<nat>)

  // ----------------------------------------------------------------------- the hash

  function Chain(hash: map<nat, seq<nat>>, b: nat): seq<nat> {
    if b in hash then hash[b] else []
  }

  /** elv_rqhash_del: off whatever chain it is on. */
  function HashDel(hash: map<nat, seq<nat>>, x: nat): map<nat, seq<nat>> {
    map b | b in hash :: Without(hash[b], x)
  }

  /** elv_rqhash_add under end sector e. */
  function HashAdd(hash: map<nat, seq<nat>>, h: nat -> nat, x: nat, e: nat): map<nat, seq<nat>> {
    hash[h(e) := [x] + Chain(hash, h(e))]
  }

  /** elv_rqhash_reposition. */
  function Rehash(hash: map<nat, seq<nat>>, h: nat -> nat, x: nat, e: nat): map<nat, seq<nat>> {
    HashAdd(HashDel(hash, x), h, x, e)
  }

  /** The walk of elv_rqhash_find: unmergeable requests on the way are dropped from the chain. */
  function FindIn(reqs: map<nat, Req>, chain: seq<nat>, offset: nat): (seq<nat>, Option<nat>)
    requires forall x | x in chain :: x in reqs
  {
    if chain == [] then ([], None)
    else if reqs[chain[0]].nomerge then FindIn(reqs, chain[1..], offset)
    else if reqs[chain[0]].End() == offset then (chain, Some(chain[0]))
    else var (rest, found) := FindIn(reqs, chain[1..], offset); ([chain[0]] + rest, found)
  }

  /** elv_rqhash_find. */
  function HashFind(s: St, h: nat -> nat, offset: nat): (St, Option<nat>)
    requires HashOk(s, h)
  {
    var (chain, found) := FindIn(s.reqs, Chain(s.hash, h(offset)), offset);
    (if h(offset) in s.hash then s.(hash := s.hash[h(offset) := chain]) else s, found)
  }

  /** Every hashed request is on one chain, that of its current end sector. */
  ghost predicate HashOk(s: St, h: nat -> nat) {
    forall b | b in s.hash ::
      Distinct(s.hash[b]) && forall x | x in s.hash[b] :: x in s.reqs && h(s.reqs[x].End()) == b
  }

  /** Every mergeable request is hashed. */
  ghost predicate HashFull(s: St, h: nat -> nat) {
    forall x | x in s.reqs && !s.reqs[x].nomerge :: x in Chain(s.hash, h(s.reqs[x].End()))
  }

  lemma {:induction false} FindInAgrees(reqs: map<nat, Req>, chain: seq<nat>, offset: nat)
    requires Distinct(chain) && forall x | x in chain :: x in reqs
    ensures var (rest, found) := FindIn(reqs, chain, offset);
            && Distinct(rest) && (forall x | x in rest :: x in chain)
            && (forall x | x in chain && !reqs[x].nomerge :: x in rest)
            && (found.Some? ==> found.value in chain && !reqs[found.value].nomerge && reqs[found.value].End() == offset)
            && (found.None? ==> forall x | x in chain && !reqs[x].nomerge :: reqs[x].End() != offset)
  {
    if chain != [] && !(!reqs[chain[0]].nomerge && reqs[chain[0]].End() == offset) {
      FindInAgrees(reqs, chain[1..], offset);
      assert chain[0] !in chain[1..];
    }
  }

  /** elv_rqhash_find agrees with a search of all requests: it finds a mergeable one ending there iff one exists. */
  lemma FindAgrees(s: St, h: nat -> nat, offset: nat)
    requires HashOk(s, h) && HashFull(s, h)
    ensures var (r, found) := HashFind(s, h, offset);
            && HashOk(r, h) && HashFull(r, h) && r.reqs == s.reqs && r.last == s.last
            && (found.Some? ==> found.value in s.reqs && !s.reqs[found.value].nomerge && s.reqs[found.value].End() == offset)
            && (found.None? <==> forall x | x in s.reqs && !s.reqs[x].nomerge :: s.reqs[x].End() != offset)
  {
    FindInAgrees(s.reqs, Chain(s.hash, h(offset)), offset);
    hide FindIn, Distinct;
  }

  // ---------------------------------------------------------------------- operations

  datatype Pick = NoMerge | Back(x: nat) | Front(x: nat)

  /** elv_rq_merge_ok; allowed: the requests the scheduler lets this bio join. */
  predicate MergeOk(r: Req, bio: Bio, allowed: bool) {
    !r.nomerge && r.bios != [] && bio.discard == r.bios[0].discard && bio.kind == r.kind && !r.special && allowed
  }

  /** elv_try_merge. */
  function TryMerge(s: St, x: nat, bio: Bio, allowed: set<nat>): Pick
    requires x in s.reqs
  {
    if !MergeOk(s.reqs[x], bio, x in allowed) then NoMerge
    else if s.reqs[x].End() == bio.sector then Back(x)
    else if s.reqs[x].sector == bio.sector + bio.nr then Front(x)
    else NoMerge
  }

  /** elevator_merge_fn: a request of the scheduler's tree that starts where the bio ends. */
  predicate FrontOk(s: St, bio: Bio, allowed: set<nat>, front: Option<nat>) {
    front.Some? ==>
      && front.value in s.reqs && s.reqs[front.value].sector == bio.sector + bio.nr
      && MergeOk(s.reqs[front.value], bio, front.value in allowed)
  }

  /** elv_merge. */
  function ElvMerge(s: St, h: nat -> nat, bio: Bio, allowed: set<nat>, nomerges: bool, front: Option<nat>): (St, Pick)
    requires HashOk(s, h) && LastOk(s)
  {
    if s.last.Some? && TryMerge(s, s.last.value, bio, allowed) != NoMerge then
      (s, TryMerge(s, s.last.value, bio, allowed))
    else if nomerges then (s, NoMerge)
    else
      var (s1, found) := HashFind(s, h, bio.sector);
      if found.Some? && found.value in s.reqs && MergeOk(s.reqs[found.value], bio, found.value in allowed)
      then (s1, Back(found.value))
      else if front.Some? then (s1, Front(front.value))
      else (s1, NoMerge)
  }

  /** ll_back_merge_fn and ll_front_merge_fn: the limits. */
  predicate Fits(conf: Conf, r: Req, bio: Bio) {
    r.nr + bio.nr <= conf.maxSectors && r.segs + bio.segs <= conf.maxHw && r.segs + bio.segs <= conf.maxPhys
  }

  /** They refuse: x takes no more bios. */
  function Refuse(s: St, x: nat): St
    requires x in s.reqs
  {
    s.(reqs := s.reqs[x := s.reqs[x].(nomerge := true)], last := if s.last == Some(x) then None else s.last)
  }

  function WithBack(r: Req, bio: Bio): Req {
    r.(bios := r.bios + [bio], nr := r.nr + bio.nr, segs := r.segs + bio.segs)
  }

  function WithFront(r: Req, bio: Bio): Req {
    r.(bios := [bio] + r.bios, sector := bio.sector, nr := r.nr + bio.nr, segs := r.segs + bio.segs)
  }

  function JoinedSegs(a: Req, b: Req, contig: bool): nat {
    if contig && a.segs + b.segs > 0 then a.segs + b.segs - 1 else a.segs + b.segs
  }

  /** The tests of attempt_merge and ll_merge_requests_fn. */
  predicate CanJoin(conf: Conf, a: Req, b: Req, contig: bool) {
    && !a.nomerge && !b.nomerge && a.End() == b.sector && a.kind == b.kind && !a.special && !b.special
    && a.nr + b.nr <= conf.maxSectors
    && JoinedSegs(a, b, contig) <= conf.maxPhys && JoinedSegs(a, b, contig) <= conf.maxHw
  }

  function Joined(a: Req, b: Req, contig: bool): Req {
    a.(bios := a.bios + b.bios, nr := a.nr + b.nr, segs := JoinedSegs(a, b, contig))
  }

  /** attempt_merge with elv_merge_requests: y becomes part of x. */
  function Join(s: St, h: nat -> nat, x: nat, y: nat, contig: bool): St
    requires x in s.reqs && y in s.reqs && x != y
  {
    var r := Joined(s.reqs[x], s.reqs[y], contig);
    St(s.reqs[x := r] - {y}, HashDel(Rehash(s.hash, h, x, r.End()), y), Some(x))
  }

  /** A neighbour in the scheduler's tree, elv_latter_request or elv_former_request. */
  predicate NeighbourOk(s: St, x: nat, n: Option<nat>) {
    n.Some? ==> n.value in s.reqs && n.value != x
  }

  /** The back merge arm of __make_request, once the limits allow it. */
  function BackArm(s: St, h: nat -> nat, conf: Conf, x: nat, bio: Bio, latter: Option<nat>, contig: bool): St
    requires x in s.reqs && NeighbourOk(s, x, latter)
  {
    var r := WithBack(s.reqs[x], bio);
    var s1 := s.(reqs := s.reqs[x := r]);
    if latter.Some? && CanJoin(conf, r, s1.reqs[latter.value], contig) then Join(s1, h, x, latter.value, contig)
    else s1.(hash := Rehash(s1.hash, h, x, r.End()), last := Some(x))
  }

  /** The front merge arm: the end sector stays, and so does the place in the hash. */
  function FrontArm(s: St, h: nat -> nat, conf: Conf, x: nat, bio: Bio, former: Option<nat>, contig: bool): St
    requires x in s.reqs && NeighbourOk(s, x, former)
  {
    var r := WithFront(s.reqs[x], bio);
    var s1 := s.(reqs := s.reqs[x := r]);
    if former.Some? && CanJoin(conf, s1.reqs[former.value], r, contig) then Join(s1, h, former.value, x, contig)
    else s1.(last := Some(x))
  }

  /** A request of its own, through elv_insert. */
  function AddNew(s: St, h: nat -> nat, x: nat, bio: Bio, nomerge: bool): St {
    var r := Req(bio.sector, bio.nr, [bio], bio.kind, false, nomerge, bio.segs);
    var s1 := s.(reqs := s.reqs[x := r]);
    if nomerge then s1
    else s1.(hash := HashAdd(s.hash, h, x, r.End()), last := if s.last.None? then Some(x) else s.last)
  }

  /** What the scheduler and the driver decide in one submission; latter and former give tree neighbours. */
  datatype Env = Env(
    allowed: set<nat>, nomerges: bool, front: Option<nat>, latter: map<nat, nat>, former: map<nat, nat>,
    contig: bool, newId: nat, barrier: bool)

  predicate EnvOk(s: St, bio: Bio, e: Env) {
    && FrontOk(s, bio, e.allowed, e.front) && e.newId !in s.reqs
    && (forall x | x in e.latter :: e.latter[x] in s.reqs && e.latter[x] != x)
    && (forall x | x in e.former :: e.former[x] in s.reqs && e.former[x] != x)
  }

  function Neighbour(m: map<nat, nat>, x: nat): Option<nat> {
    if x in m then Some(m[x]) else None
  }

  ghost predicate LastOk(s: St) {
    s.last.Some? ==> s.last.value in s.reqs
  }

  /** elv_merge picks a mergeable request that the bio continues, at the end or at the front. */
  lemma ElvMergePicks(s: St, h: nat -> nat, bio: Bio, allowed: set<nat>, nomerges: bool, front: Option<nat>)
    requires HashOk(s, h) && LastOk(s) && FrontOk(s, bio, allowed, front)
    ensures var (s1, pick) := ElvMerge(s, h, bio, allowed, nomerges, front);
            && s1.reqs == s.reqs && s1.last == s.last && HashOk(s1, h)
            && (pick.Back? ==> pick.x in s.reqs && s.reqs[pick.x].End() == bio.sector
                               && MergeOk(s.reqs[pick.x], bio, pick.x in allowed))
            && (pick.Front? ==> pick.x in s.reqs && s.reqs[pick.x].sector == bio.sector + bio.nr
                                && MergeOk(s.reqs[pick.x], bio, pick.x in allowed))
            && (HashFull(s, h) ==> HashFull(s1, h))
  {
    FindInAgrees(s.reqs, Chain(s.hash, h(bio.sector)), bio.sector);
    hide FindIn, Distinct, MergeOk;
  }

  /** __make_request as far as merging goes. */
  function Submit(s: St, h: nat -> nat, conf: Conf, bio: Bio, e: Env): St
    requires HashOk(s, h) && LastOk(s) && EnvOk(s, bio, e)
  {
    if e.barrier then AddNew(s, h, e.newId, bio, true)
    else
      ElvMergePicks(s, h, bio, e.allowed, e.nomerges, e.front);
      var (s1, pick) := ElvMerge(s, h, bio, e.allowed, e.nomerges, e.front);
      match pick
      case NoMerge => AddNew(s1, h, e.newId, bio, false)
      case Back(x) =>
        if Fits(conf, s1.reqs[x], bio) then BackArm(s1, h, conf, x, bio, Neighbour(e.latter, x), e.contig)
        else AddNew(Refuse(s1, x), h, e.newId, bio, false)
      case Front(x) =>
        if Fits(conf, s1.reqs[x], bio) then FrontArm(s1, h, conf, x, bio, Neighbour(e.former, x), e.contig)
        else AddNew(Refuse(s1, x), h, e.newId, bio, false)
  }

  /** The scheduler hands x to the dispatch queue: elv_dispatch_sort or elv_dispatch_add_tail. */
  function Dispatch(s: St, x: nat): St
    requires x in s.reqs
  {
    St(s.reqs - {x}, HashDel(s.hash, x), if s.last == Some(x) then None else s.last)
  }

  // ---------------------------------------------------------------------- invariants

  /** The bios tile the sectors from a to b without gap or overlap. */
  predicate Tile(bios: seq<Bio>, a: nat, b: nat) {
    if bios == [] then a == b else bios[0].sector == a && Tile(bios[1..], a + bios[0].nr, b)
  }

  function IdSet(bios: seq<Bio>): set<nat> {
    set i | 0 <= i < |bios| :: bios[i].id
  }

  predicate DistinctIds(bios: seq<Bio>) {
    forall i, j | 0 <= i < j < |bios| :: bios[i].id != bios[j].id
  }

  /** A request is its bios, in order and contiguous, of one kind, and within the limits. */
  predicate ReqOk(conf: Conf, r: Req) {
    && r.bios != [] && Tile(r.bios, r.sector, r.End()) && DistinctIds(r.bios)
    && (forall i | 0 <= i < |r.bios| :: r.bios[i].kind == r.kind)
    && r.nr <= conf.maxSectors && r.segs <= conf.maxPhys && r.segs <= conf.maxHw
  }

  ghost predicate ReqsOk(conf: Conf, reqs: map<nat, Req>) {
    && (forall x | x in reqs :: ReqOk(conf, reqs[x]))
    && (forall x, y | x in reqs && y in reqs && x != y :: IdSet(reqs[x].bios) !! IdSet(reqs[y].bios))
  }

  ghost predicate Inv(s: St, h: nat -> nat, conf: Conf) {
    HashOk(s, h) && HashFull(s, h) && LastOk(s) && ReqsOk(conf, s.reqs)
  }

  ghost function AllIds(reqs: map<nat, Req>): set<nat> {
    set x, i | x in reqs && 0 <= i < |reqs[x].bios| :: reqs[x].bios[i].id
  }

  lemma AllIdsIs(reqs: map<nat, Req>, id: nat)
    ensures id in AllIds(reqs) <==> exists x :: x in reqs && id in IdSet(reqs[x].bios)
  {
  }

  lemma {:induction false} TileAppend(a: seq<Bio>, b: seq<Bio>, i: nat, j: nat, k: nat)
    requires Tile(a, i, j) && Tile(b, j, k)
    ensures Tile(a + b, i, k)
  {
    if a == [] {
      assert a + b == b;
    } else {
      TileAppend(a[1..], b, i + a[0].nr, j, k);
      assert (a + b)[1..] == a[1..] + b;
    }
  }

  lemma IdSetAppend(a: seq<Bio>, b: seq<Bio>)
    ensures IdSet(a + b) == IdSet(a) + IdSet(b)
    ensures DistinctIds(a) && DistinctIds(b) && IdSet(a) !! IdSet(b) ==> DistinctIds(a + b)
  {
    var c := a + b;
    forall id ensures id in IdSet(c) <==> id in IdSet(a) || id in IdSet(b) {
      if id in IdSet(b) {
        var j :| 0 <= j < |b| && b[j].id == id;
        assert c[|a| + j] == b[j];
      }
      if id in IdSet(a) {
        var i :| 0 <= i < |a| && a[i].id == id;
        assert c[i] == a[i];
      }
    }
    if DistinctIds(a) && DistinctIds(b) && IdSet(a) !! IdSet(b) {
      forall i, j | 0 <= i < j < |c| ensures c[i].id != c[j].id {
        assert i < |a| ==> c[i].id in IdSet(a);
        assert j >= |a| ==> c[j].id in IdSet(b);
      }
    }
  }

  lemma BackOk(conf: Conf, r: Req, bio: Bio)
    requires ReqOk(conf, r) && r.End() == bio.sector && bio.kind == r.kind && Fits(conf, r, bio)
    requires bio.id !in IdSet(r.bios)
    ensures ReqOk(conf, WithBack(r, bio)) && IdSet(WithBack(r, bio).bios) == IdSet(r.bios) + {bio.id}
  {
    TileAppend(r.bios, [bio], r.sector, r.End(), r.End() + bio.nr);
    IdSetAppend(r.bios, [bio]);
    assert IdSet([bio]) == {bio.id};
    hide Tile;
  }

  lemma FrontMergeOk(conf: Conf, r: Req, bio: Bio)
    requires ReqOk(conf, r) && r.sector == bio.sector + bio.nr && bio.kind == r.kind && Fits(conf, r, bio)
    requires bio.id !in IdSet(r.bios)
    ensures ReqOk(conf, WithFront(r, bio)) && IdSet(WithFront(r, bio).bios) == IdSet(r.bios) + {bio.id}
    ensures WithFront(r, bio).End() == r.End()
  {
    TileAppend([bio], r.bios, bio.sector, r.sector, r.End());
    IdSetAppend([bio], r.bios);
    assert IdSet([bio]) == {bio.id};
    hide Tile;
  }

  lemma JoinedOk(conf: Conf, a: Req, b: Req, contig: bool)
    requires ReqOk(conf, a) && ReqOk(conf, b) && CanJoin(conf, a, b, contig) && IdSet(a.bios) !! IdSet(b.bios)
    ensures ReqOk(conf, Joined(a, b, contig)) && IdSet(Joined(a, b, contig).bios) == IdSet(a.bios) + IdSet(b.bios)
    ensures Joined(a, b, contig).End() == b.End()
  {
    TileAppend(a.bios, b.bios, a.sector, b.sector, b.End());
    IdSetAppend(a.bios, b.bios);
    hide Tile;
  }

  // ---------------------------------------------------------- the hash stays exact

  /** As HashOk and HashFull, but x may be on a wrong chain or on none. */
  ghost predicate HashBut(s: St, h: nat -> nat, x: nat) {
    && (forall b | b in s.hash ::
          Distinct(s.hash[b]) && forall y | y in s.hash[b] && y != x :: y in s.reqs && h(s.reqs[y].End()) == b)
    && (forall y | y in s.reqs && y != x && !s.reqs[y].nomerge :: y in Chain(s.hash, h(s.reqs[y].End())))
  }

  lemma HashDelIs(hash: map<nat, seq<nat>>, x: nat, b: nat)
    requires b in hash && Distinct(hash[b])
    ensures b in HashDel(hash, x) && Distinct(HashDel(hash, x)[b])
    ensures forall y :: y in HashDel(hash, x)[b] <==> y in hash[b] && y != x
  {
    WithoutDistinct(hash[b], x);
  }

  lemma RehashOk(s: St, h: nat -> nat, x: nat)
    requires HashBut(s, h, x) && x in s.reqs
    ensures var r := s.(hash := Rehash(s.hash, h, x, s.reqs[x].End())); HashOk(r, h) && HashFull(r, h)
  {
    forall b | b in s.hash ensures b in HashDel(s.hash, x) && Distinct(HashDel(s.hash, x)[b])
                                && forall y :: y in HashDel(s.hash, x)[b] <==> y in s.hash[b] && y != x
    {
      HashDelIs(s.hash, x, b);
    }
    hide Without;
  }

  /** A request that goes takes its hash entry with it. */
  lemma RemoveOk(s: St, h: nat -> nat, x: nat, last: Option<nat>)
    requires HashOk(s, h) && HashFull(s, h)
    ensures var r := St(s.reqs - {x}, HashDel(s.hash, x), last); HashOk(r, h) && HashFull(r, h)
  {
    forall b | b in s.hash ensures b in HashDel(s.hash, x) && Distinct(HashDel(s.hash, x)[b])
                                && forall y :: y in HashDel(s.hash, x)[b] <==> y in s.hash[b] && y != x
    {
      HashDelIs(s.hash, x, b);
    }
    hide Without;
  }

  /** A fresh request on no chain. */
  lemma HashAddOk(s: St, h: nat -> nat, x: nat, r: Req, last: Option<nat>)
    requires HashOk(s, h) && HashFull(s, h) && x !in s.reqs
    ensures var t := St(s.reqs[x := r], if r.nomerge then s.hash else HashAdd(s.hash, h, x, r.End()), last);
            HashOk(t, h) && HashFull(t, h)
  {
  }

  lemma ChangedBut(s: St, h: nat -> nat, x: nat, r: Req)
    requires HashOk(s, h) && HashFull(s, h) && x in s.reqs
    ensures HashBut(s.(reqs := s.reqs[x := r]), h, x)
    ensures r.End() == s.reqs[x].End() && (r.nomerge || !s.reqs[x].nomerge) ==>
              HashOk(s.(reqs := s.reqs[x := r]), h) && HashFull(s.(reqs := s.reqs[x := r]), h)
  {
  }

  lemma HashBoth(s: St, h: nat -> nat, x: nat, r: Req)
    requires HashBut(s, h, x)
    ensures HashBut(s.(reqs := s.reqs[x := r]), h, x)
  {
  }

  lemma JoinHash(s: St, h: nat -> nat, x: nat, y: nat, contig: bool)
    requires x in s.reqs && y in s.reqs && x != y && HashBut(s, h, x)
    ensures HashOk(Join(s, h, x, y, contig), h) && HashFull(Join(s, h, x, y, contig), h)
  {
    hide HashBut, HashOk, HashFull, Rehash, HashDel;
    var r := Joined(s.reqs[x], s.reqs[y], contig);
    HashBoth(s, h, x, r);
    var s1 := s.(reqs := s.reqs[x := r]);
    RehashOk(s1, h, x);
    RemoveOk(s1.(hash := Rehash(s1.hash, h, x, r.End())), h, y, Some(x));
  }

  // ------------------------------------------------------- no bio lost or duplicated

  lemma OneMore(conf: Conf, reqs: map<nat, Req>, x: nat, r: Req, id: nat)
    requires ReqsOk(conf, reqs) && x in reqs && ReqOk(conf, r) && id !in AllIds(reqs)
    requires IdSet(r.bios) == IdSet(reqs[x].bios) + {id}
    ensures ReqsOk(conf, reqs[x := r]) && AllIds(reqs[x := r]) == AllIds(reqs) + {id}
  {
    hide ReqOk, IdSet, AllIds;
    forall y | y in reqs ensures id !in IdSet(reqs[y].bios) {
      AllIdsIs(reqs, id);
    }
    forall i ensures i in AllIds(reqs[x := r]) <==> i in AllIds(reqs) + {id} {
      AllIdsIs(reqs, i);
      AllIdsIs(reqs[x := r], i);
      if i in AllIds(reqs) {
        var y :| y in reqs && i in IdSet(reqs[y].bios);
        assert i in IdSet(reqs[x := r][y].bios);
      }
      if i == id {
        assert i in IdSet(reqs[x := r][x].bios);
      }
    }
  }

  lemma OneNew(conf: Conf, reqs: map<nat, Req>, x: nat, r: Req, id: nat)
    requires ReqsOk(conf, reqs) && x !in reqs && ReqOk(conf, r) && id !in AllIds(reqs) && IdSet(r.bios) == {id}
    ensures ReqsOk(conf, reqs[x := r]) && AllIds(reqs[x := r]) == AllIds(reqs) + {id}
  {
    hide ReqOk, IdSet, AllIds;
    forall y | y in reqs ensures id !in IdSet(reqs[y].bios) {
      AllIdsIs(reqs, id);
    }
    forall i ensures i in AllIds(reqs[x := r]) <==> i in AllIds(reqs) + {id} {
      AllIdsIs(reqs, i);
      AllIdsIs(reqs[x := r], i);
      if i in AllIds(reqs) {
        var y :| y in reqs && i in IdSet(reqs[y].bios);
        assert i in IdSet(reqs[x := r][y].bios);
      }
      if i == id {
        assert i in IdSet(reqs[x := r][x].bios);
      }
    }
  }

  lemma TwoInOne(conf: Conf, reqs: map<nat, Req>, x: nat, y: nat, r: Req)
    requires ReqsOk(conf, reqs) && x in reqs && y in reqs && x != y && ReqOk(conf, r)
    requires IdSet(r.bios) == IdSet(reqs[x].bios) + IdSet(reqs[y].bios)
    ensures ReqsOk(conf, reqs[x := r] - {y}) && AllIds(reqs[x := r] - {y}) == AllIds(reqs)
  {
    hide ReqOk, IdSet, AllIds;
    var after := reqs[x := r] - {y};
    forall i ensures i in AllIds(after) <==> i in AllIds(reqs) {
      AllIdsIs(reqs, i);
      AllIdsIs(after, i);
      if i in AllIds(reqs) {
        var z :| z in reqs && i in IdSet(reqs[z].bios);
        assert i in IdSet(after[if z == y then x else z].bios);
      }
      if i in AllIds(after) {
        var z :| z in after && i in IdSet(after[z].bios);
        assert i in IdSet(reqs[z].bios) || i in IdSet(reqs[y].bios);
      }
    }
  }

  lemma SameBios(conf: Conf, reqs: map<nat, Req>, x: nat)
    requires ReqsOk(conf, reqs) && x in reqs
    ensures var r := reqs[x := reqs[x].(nomerge := true)]; ReqsOk(conf, r) && AllIds(r) == AllIds(reqs)
  {
    hide Tile;
    var r := reqs[x := reqs[x].(nomerge := true)];
    assert forall y | y in reqs :: r[y].bios == reqs[y].bios;
    hide DistinctIds;
  }

  // ----------------------------------------------------------- every step keeps it all

  lemma JoinKeeps(s: St, h: nat -> nat, conf: Conf, x: nat, y: nat, contig: bool)
    requires x in s.reqs && y in s.reqs && x != y && HashBut(s, h, x) && ReqsOk(conf, s.reqs)
    requires CanJoin(conf, s.reqs[x], s.reqs[y], contig)
    ensures var r := Join(s, h, x, y, contig); Inv(r, h, conf) && AllIds(r.reqs) == AllIds(s.reqs)
  {
    hide HashOk, HashFull, HashBut, AllIds, ReqOk, IdSet, CanJoin, Rehash, HashDel;
    JoinHash(s, h, x, y, contig);
    JoinedOk(conf, s.reqs[x], s.reqs[y], contig);
    TwoInOne(conf, s.reqs, x, y, Joined(s.reqs[x], s.reqs[y], contig));
  }

  lemma FreshId(reqs: map<nat, Req>, x: nat, id: nat)
    requires x in reqs && id !in AllIds(reqs)
    ensures id !in IdSet(reqs[x].bios)
  {
    AllIdsIs(reqs, id);
  }

  lemma BackArmKeeps(s: St, h: nat -> nat, conf: Conf, x: nat, bio: Bio, latter: Option<nat>, contig: bool)
    requires Inv(s, h, conf) && x in s.reqs && NeighbourOk(s, x, latter) && bio.id !in AllIds(s.reqs)
    requires s.reqs[x].End() == bio.sector && bio.kind == s.reqs[x].kind && Fits(conf, s.reqs[x], bio)
    ensures var r := BackArm(s, h, conf, x, bio, latter, contig);
            Inv(r, h, conf) && AllIds(r.reqs) == AllIds(s.reqs) + {bio.id}
  {
    hide HashOk, HashFull, HashBut, AllIds, ReqOk, IdSet, CanJoin, Join, Rehash, Fits;
    var r := WithBack(s.reqs[x], bio);
    var s1 := s.(reqs := s.reqs[x := r]);
    FreshId(s.reqs, x, bio.id);
    BackOk(conf, s.reqs[x], bio);
    OneMore(conf, s.reqs, x, r, bio.id);
    ChangedBut(s, h, x, r);
    if latter.Some? && CanJoin(conf, r, s1.reqs[latter.value], contig) {
      JoinKeeps(s1, h, conf, x, latter.value, contig);
    } else {
      RehashOk(s1, h, x);
      LastIn(s1.(hash := Rehash(s1.hash, h, x, r.End())), h, x);
    }
  }

  /** last_merge is not part of the hash. */
  lemma LastIn(s: St, h: nat -> nat, x: nat)
    requires HashOk(s, h) && HashFull(s, h)
    ensures HashOk(s.(last := Some(x)), h) && HashFull(s.(last := Some(x)), h)
  {
  }

  lemma FrontArmKeeps(s: St, h: nat -> nat, conf: Conf, x: nat, bio: Bio, former: Option<nat>, contig: bool)
    requires Inv(s, h, conf) && x in s.reqs && NeighbourOk(s, x, former) && bio.id !in AllIds(s.reqs)
    requires s.reqs[x].sector == bio.sector + bio.nr && bio.kind == s.reqs[x].kind && Fits(conf, s.reqs[x], bio)
    ensures var r := FrontArm(s, h, conf, x, bio, former, contig);
            Inv(r, h, conf) && AllIds(r.reqs) == AllIds(s.reqs) + {bio.id}
  {
    hide HashOk, HashFull, HashBut, AllIds, ReqOk, IdSet, CanJoin, Join, Rehash, Fits;
    var r := WithFront(s.reqs[x], bio);
    var s1 := s.(reqs := s.reqs[x := r]);
    FreshId(s.reqs, x, bio.id);
    FrontMergeOk(conf, s.reqs[x], bio);
    OneMore(conf, s.reqs, x, r, bio.id);
    ChangedBut(s, h, x, r);
    if former.Some? && CanJoin(conf, s1.reqs[former.value], r, contig) {
      OkIsBut(s1, h, former.value);
      JoinKeeps(s1, h, conf, former.value, x, contig);
    } else {
      LastIn(s1, h, x);
    }
  }

  lemma OkIsBut(s: St, h: nat -> nat, x: nat)
    requires HashOk(s, h) && HashFull(s, h)
    ensures HashBut(s, h, x)
  {
  }

  /** The limits a driver sets leave room for any single bio. */
  predicate BioFits(conf: Conf, bio: Bio) {
    bio.nr <= conf.maxSectors && bio.segs <= conf.maxPhys && bio.segs <= conf.maxHw
  }

  lemma SingleOk(conf: Conf, r: Req, bio: Bio)
    requires r.bios == [bio] && r.sector == bio.sector && r.nr == bio.nr && r.kind == bio.kind && r.segs == bio.segs
    requires BioFits(conf, bio)
    ensures ReqOk(conf, r) && IdSet(r.bios) == {bio.id}
  {
    assert r.bios[1..] == [] && Tile(r.bios[1..], r.End(), r.End());
    assert r.bios[0].id in IdSet(r.bios);
  }

  lemma AddNewKeeps(s: St, h: nat -> nat, conf: Conf, x: nat, bio: Bio, nomerge: bool)
    requires Inv(s, h, conf) && x !in s.reqs && bio.id !in AllIds(s.reqs) && BioFits(conf, bio)
    ensures var r := AddNew(s, h, x, bio, nomerge); Inv(r, h, conf) && AllIds(r.reqs) == AllIds(s.reqs) + {bio.id}
  {
    hide HashOk, HashFull, AllIds, ReqsOk;
    var r := Req(bio.sector, bio.nr, [bio], bio.kind, false, nomerge, bio.segs);
    SingleOk(conf, r, bio);
    hide ReqOk, IdSet, HashAdd;
    OneNew(conf, s.reqs, x, r, bio.id);
    HashAddOk(s, h, x, r, AddNew(s, h, x, bio, nomerge).last);
  }

  lemma RefuseKeeps(s: St, h: nat -> nat, conf: Conf, x: nat)
    requires Inv(s, h, conf) && x in s.reqs
    ensures var r := Refuse(s, x); Inv(r, h, conf) && AllIds(r.reqs) == AllIds(s.reqs) && r.reqs.Keys == s.reqs.Keys
  {
    hide AllIds, ReqsOk;
    SameBios(conf, s.reqs, x);
  }

  /** One submission: the bio ends up in exactly one request, and nothing else is lost, duplicated or torn. */
  lemma SubmitKeeps(s: St, h: nat -> nat, conf: Conf, bio: Bio, e: Env)
    requires Inv(s, h, conf) && EnvOk(s, bio, e) && bio.id !in AllIds(s.reqs) && BioFits(conf, bio)
    ensures var r := Submit(s, h, conf, bio, e); Inv(r, h, conf) && AllIds(r.reqs) == AllIds(s.reqs) + {bio.id}
  {
    hide HashOk, HashFull, AllIds, ReqsOk, ElvMerge, BackArm, FrontArm, AddNew, Refuse, BioFits;
    if e.barrier {
      AddNewKeeps(s, h, conf, e.newId, bio, true);
    } else {
      ElvMergePicks(s, h, bio, e.allowed, e.nomerges, e.front);
      var (s1, pick) := ElvMerge(s, h, bio, e.allowed, e.nomerges, e.front);
      match pick {
        case NoMerge => AddNewKeeps(s1, h, conf, e.newId, bio, false);
        case Back(x) =>
          if Fits(conf, s1.reqs[x], bio) {
            BackArmKeeps(s1, h, conf, x, bio, Neighbour(e.latter, x), e.contig);
          } else {
            RefuseKeeps(s1, h, conf, x);
            AddNewKeeps(Refuse(s1, x), h, conf, e.newId, bio, false);
          }
        case Front(x) =>
          if Fits(conf, s1.reqs[x], bio) {
            FrontArmKeeps(s1, h, conf, x, bio, Neighbour(e.former, x), e.contig);
          } else {
            RefuseKeeps(s1, h, conf, x);
            AddNewKeeps(Refuse(s1, x), h, conf, e.newId, bio, false);
          }
      }
    }
  }

  lemma DispatchKeeps(s: St, h: nat -> nat, conf: Conf, x: nat)
    requires Inv(s, h, conf) && x in s.reqs
    ensures var r := Dispatch(s, x); Inv(r, h, conf) && AllIds(r.reqs) == AllIds(s.reqs) - IdSet(s.reqs[x].bios)
  {
    hide HashOk, HashFull, AllIds, ReqOk, IdSet;
    var r := Dispatch(s, x);
    RemoveOk(s, h, x, r.last);
    forall i ensures i in AllIds(r.reqs) <==> i in AllIds(s.reqs) - IdSet(s.reqs[x].bios) {
      AllIdsIs(s.reqs, i);
      AllIdsIs(r.reqs, i);
      if i in AllIds(s.reqs) && i !in IdSet(s.reqs[x].bios) {
        var y :| y in s.reqs && i in IdSet(s.reqs[y].bios);
        assert i in IdSet(r.reqs[y].bios);
      }
    }
  }

  // ----------------------------------------------------------------------------- runs

  datatype Step = SubmitStep(bio: Bio, e: Env) | DispatchStep(x: nat) | MarkStep(x: nat)

  /** Bios are submitted once.  MarkStep: a queued request becomes unmergeable for another reason. */
  ghost predicate Enabled(s: St, conf: Conf, seen: set<nat>, step: Step) {
    match step
    case SubmitStep(bio, e) => EnvOk(s, bio, e) && bio.id !in seen && BioFits(conf, bio)
    case DispatchStep(x) => x in s.reqs
    case MarkStep(x) => x in s.reqs
  }

  /** seen: bios submitted so far; gone: those dispatched. */
  ghost predicate Runs(s: St, h: nat -> nat, conf: Conf, seen: set<nat>, gone: set<nat>, steps: seq<Step>,
                       r: St, seen': set<nat>, gone': set<nat>)
    requires Inv(s, h, conf)
    decreases |steps|
  {
    if steps == [] then r == s && seen' == seen && gone' == gone
    else
      && Enabled(s, conf, seen, steps[0])
      && match steps[0]
         case SubmitStep(bio, e) =>
           && bio.id !in AllIds(s.reqs)
           && (SubmitKeeps(s, h, conf, bio, e);
               Runs(Submit(s, h, conf, bio, e), h, conf, seen + {bio.id}, gone, steps[1..], r, seen', gone'))
         case DispatchStep(x) =>
           (DispatchKeeps(s, h, conf, x);
            Runs(Dispatch(s, x), h, conf, seen, gone + IdSet(s.reqs[x].bios), steps[1..], r, seen', gone'))
         case MarkStep(x) =>
           (RefuseKeeps(s, h, conf, x); Runs(Refuse(s, x), h, conf, seen, gone, steps[1..], r, seen', gone'))
  }

  /**
   After any run: every queued request tiles its sectors with its bios, within the limits; the bios
   submitted are exactly those queued, each in one place, and those dispatched; the hash is exact.
   */
  lemma {:induction false} MergingIsExact(s: St, h: nat -> nat, conf: Conf, seen: set<nat>, gone: set<nat>,
                                          steps: seq<Step>, r: St, seen': set<nat>, gone': set<nat>)
    requires Inv(s, h, conf) && AllIds(s.reqs) + gone == seen && AllIds(s.reqs) !! gone
    requires Runs(s, h, conf, seen, gone, steps, r, seen', gone')
    ensures Inv(r, h, conf) && AllIds(r.reqs) + gone' == seen' && AllIds(r.reqs) !! gone'
    decreases |steps|
  {
    if steps != [] {
      hide Inv, AllIds, Submit, Dispatch, Refuse, IdSet, EnvOk, BioFits;
      match steps[0] {
        case SubmitStep(bio, e) =>
          SubmitKeeps(s, h, conf, bio, e);
          MergingIsExact(Submit(s, h, conf, bio, e), h, conf, seen + {bio.id}, gone, steps[1..], r, seen', gone');
        case DispatchStep(x) =>
          DispatchKeeps(s, h, conf, x);
          IdsInside(s.reqs, x);
          MergingIsExact(Dispatch(s, x), h, conf, seen, gone + IdSet(s.reqs[x].bios), steps[1..], r, seen', gone');
        case MarkStep(x) =>
          RefuseKeeps(s, h, conf, x);
          MergingIsExact(Refuse(s, x), h, conf, seen, gone, steps[1..], r, seen', gone');
      }
    }
  }

  lemma IdsInside(reqs: map<nat, Req>, x: nat)
    requires x in reqs
    ensures IdSet(reqs[x].bios) <= AllIds(reqs)
  {
    forall id | id in IdSet(reqs[x].bios) ensures id in AllIds(reqs) {
      AllIdsIs(reqs, id);
    }
  }

  // --------------------------------------------------------------- discards and others

  /** All bios of a request are discards, or none is. */
  predicate OneClass(bios: seq<Bio>) {
    forall i, j | 0 <= i < |bios| && 0 <= j < |bios| :: bios[i].discard == bios[j].discard
  }

  /** A bio that elv_rq_merge_ok admits keeps a request in one class. */
  lemma MergeKeepsClass(r: Req, bio: Bio, allowed: bool)
    requires MergeOk(r, bio, allowed) && OneClass(r.bios)
    ensures OneClass(WithBack(r, bio).bios) && OneClass(WithFront(r, bio).bios)
  {
    forall i | 0 <= i < |r.bios| ensures r.bios[i].discard == bio.discard {
      assert r.bios[i].discard == r.bios[0].discard;
    }
  }

  /** attempt_merge does not look at the class: joining keeps it exactly if both requests are of one. */
  lemma JoinKeepsClassIff(a: Req, b: Req, contig: bool)
    requires a.bios != [] && b.bios != [] && OneClass(a.bios) && OneClass(b.bios)
    ensures OneClass(Joined(a, b, contig).bios) <==> a.bios[0].discard == b.bios[0].discard
  {
    var c := a.bios + b.bios;
    assert c[0] == a.bios[0] && c[|a.bios|] == b.bios[0];
    forall i | 0 <= i < |c|
      ensures c[i].discard == if i < |a.bios| then a.bios[0].discard else b.bios[0].discard
    {
      assert i < |a.bios| ==> a.bios[i].discard == a.bios[0].discard;
      assert i >= |a.bios| ==> b.bios[i - |a.bios|].discard == b.bios[0].discard;
    }
  }

  /** DISCARD_BARRIER and DISCARD_NOBARRIER do not set the write bit, and a discard carries no data. */
  predicate Submittable(bio: Bio) {
    bio.discard ==> !bio.kind.write && bio.segs == 0
  }

  /** So whatever is joined with a discard are reads. */
  lemma MixedAreReads(conf: Conf, a: Req, b: Req, contig: bool)
    requires ReqOk(conf, a) && ReqOk(conf, b) && CanJoin(conf, a, b, contig) && !OneClass(Joined(a, b, contig).bios)
    requires (forall i | 0 <= i < |a.bios| :: Submittable(a.bios[i])) && forall i | 0 <= i < |b.bios| :: Submittable(b.bios[i])
    ensures forall i | 0 <= i < |a.bios| + |b.bios| :: !Joined(a, b, contig).bios[i].kind.write
  {
    hide Tile, DistinctIds;
    var c := Joined(a, b, contig).bios;
    var i, j :| 0 <= i < |c| && 0 <= j < |c| && c[i].discard != c[j].discard;
    assert forall k | 0 <= k < |c| :: c[k].kind == a.kind && Submittable(c[k]);
  }

  const EMPTY := St(map[], map[], None)

  lemma EmptyInv(h: nat -> nat, conf: Conf)
    ensures Inv(EMPTY, h, conf) && AllIds(EMPTY.reqs) == {}
  {
    forall id ensures id !in AllIds(EMPTY.reqs) {
      AllIdsIs(EMPTY.reqs, id);
    }
  }

  /** A bio that continues no queued request becomes one. */
  lemma SubmitNew(s: St, h: nat -> nat, conf: Conf, bio: Bio, e: Env)
    requires Inv(s, h, conf) && EnvOk(s, bio, e) && !e.barrier
    requires forall x | x in s.reqs :: s.reqs[x].End() != bio.sector && s.reqs[x].sector != bio.sector + bio.nr
    ensures var r := Submit(s, h, conf, bio, e);
            && r.reqs == s.reqs[e.newId := Req(bio.sector, bio.nr, [bio], bio.kind, false, false, bio.segs)]
            && r.last == if s.last.None? then Some(e.newId) else s.last
  {
    hide HashOk, HashFull, ReqsOk, ElvMerge, MergeOk, BackArm, FrontArm, Refuse, HashAdd;
    ElvMergePicks(s, h, bio, e.allowed, e.nomerges, e.front);
    var (s1, pick) := ElvMerge(s, h, bio, e.allowed, e.nomerges, e.front);
    assert pick.NoMerge?;
  }

  /** A bio that continues the request of last_merge, which in turn runs up to its latter request. */
  lemma SubmitJoins(s: St, h: nat -> nat, conf: Conf, bio: Bio, e: Env, y: nat)
    requires Inv(s, h, conf) && EnvOk(s, bio, e) && !e.barrier && s.last.Some? && s.last.value in s.reqs
    requires var x := s.last.value;
             && MergeOk(s.reqs[x], bio, x in e.allowed) && s.reqs[x].End() == bio.sector && Fits(conf, s.reqs[x], bio)
             && Neighbour(e.latter, x) == Some(y) && y in s.reqs && y != x
             && CanJoin(conf, WithBack(s.reqs[x], bio), s.reqs[y], e.contig)
    ensures var x, r := s.last.value, Submit(s, h, conf, bio, e);
            x in r.reqs && r.reqs[x].bios == s.reqs[x].bios + [bio] + s.reqs[y].bios
  {
    hide HashOk, HashFull, ReqsOk, HashFind, Rehash, HashDel, CanJoin, Fits, FrontArm, Refuse, AddNew;
    var x := s.last.value;
    assert TryMerge(s, x, bio, e.allowed) == Back(x);
  }

  /** One submission in front of a run. */
  lemma RunsSubmit(s: St, h: nat -> nat, conf: Conf, seen: set<nat>, bio: Bio, e: Env, steps: seq<Step>,
                   r: St, seen': set<nat>)
    requires Inv(s, h, conf) && Enabled(s, conf, seen, SubmitStep(bio, e)) && bio.id !in AllIds(s.reqs)
    requires Inv(Submit(s, h, conf, bio, e), h, conf)
    requires Runs(Submit(s, h, conf, bio, e), h, conf, seen + {bio.id}, {}, steps, r, seen', {})
    ensures Runs(s, h, conf, seen, {}, [SubmitStep(bio, e)] + steps, r, seen', {})
  {
    hide Inv, AllIds, Submit, EnvOk, BioFits;
    SubmitKeeps(s, h, conf, bio, e);
    assert ([SubmitStep(bio, e)] + steps)[1..] == steps;
  }

  /**
   A read of sectors 0 to 7 and a discard of 16 to 23 are queued; a read of 8 to 15 goes on the end of the
   first, and the two requests are joined.
   */
  lemma JoinCanMixClasses(h: nat -> nat) returns (conf: Conf, steps: seq<Step>, r: St)
    ensures Inv(EMPTY, h, conf) && Runs(EMPTY, h, conf, {}, {}, steps, r, {1, 2, 3}, {})
    ensures |steps| == 3 && forall i | 0 <= i < 3 :: steps[i].SubmitStep? && Submittable(steps[i].bio)
    ensures 10 in r.reqs && !OneClass(r.reqs[10].bios)
  {
    hide HashOk, HashFull, ReqsOk, AllIds, Submit, OneClass;
    conf := Conf(1024, 128, 128);
    var k := Kind(false, 1, false);
    var b1, b2, b3 := Bio(1, 0, 8, k, false, 1), Bio(2, 16, 8, k, true, 0), Bio(3, 8, 8, k, false, 1);
    var e1 := Env({}, false, None, map[], map[], false, 10, false);
    var e2 := Env({10}, false, None, map[], map[], false, 11, false);
    EmptyInv(h, conf);
    SubmitNew(EMPTY, h, conf, b1, e1);
    SubmitKeeps(EMPTY, h, conf, b1, e1);
    var s1 := Submit(EMPTY, h, conf, b1, e1);
    SubmitNew(s1, h, conf, b2, e2);
    SubmitKeeps(s1, h, conf, b2, e2);
    var s2 := Submit(s1, h, conf, b2, e2);
    var e3 := Env({10, 11}, false, None, map[10 := 11], map[11 := 10], false, 12, false);
    SubmitJoins(s2, h, conf, b3, e3, 11);
    SubmitKeeps(s2, h, conf, b3, e3);
    r := Submit(s2, h, conf, b3, e3);
    assert {} + {1} + {2} + {3} == {1, 2, 3};
    assert Runs(r, h, conf, {1, 2, 3}, {}, [], r, {1, 2, 3}, {});
    RunsSubmit(s2, h, conf, {} + {1} + {2}, b3, e3, [], r, {1, 2, 3});
    RunsSubmit(s1, h, conf, {} + {1}, b2, e2, [SubmitStep(b3, e3)] + [], r, {1, 2, 3});
    steps := [SubmitStep(b1, e1)] + ([SubmitStep(b2, e2)] + ([SubmitStep(b3, e3)] + []));
    RunsSubmit(EMPTY, h, conf, {}, b1, e1, [SubmitStep(b2, e2)] + ([SubmitStep(b3, e3)] + []), r, {1, 2, 3});
    Mixed(r.reqs[10].bios, b1, b3, b2);
  }

  lemma Mixed(bios: seq<Bio>, a: Bio, b: Bio, c: Bio)
    requires bios == [a] + [b] + [c] && a.discard != c.discard
    ensures !OneClass(bios)
  {
    assert bios[0] == a && bios[2] == c;
  }

  // ------------------------------------------------------------------ the hash in place

  class Elevator {
    var reqs: map<nat, Req>
    var hash: map<nat, seq<nat>>
    var last: Option<nat>

    ghost function State(): St
      reads this
    {
      St(reqs, hash, last)
    }

    /** elv_rqhash_find; the chain is walked and pruned in place. */
    method RqhashFind(h: nat -> nat, offset: nat) returns (found: Option<nat>)
      requires HashOk(State(), h)
      modifies this`hash
      ensures (State(), found) == HashFind(old(State()), h, offset)
    {
      var b := h(offset);
      if b !in hash {
        return None;
      }
      ghost var chain := hash[b];
      var done, todo := [], hash[b];
      found := None;
      while todo != [] && found.None?
        invariant forall x | x in todo :: x in reqs
        invariant found.None? ==>
            && FindIn(reqs, chain, offset).0 == done + FindIn(reqs, todo, offset).0
            && FindIn(reqs, chain, offset).1 == FindIn(reqs, todo, offset).1
        invariant found.Some? ==> FindIn(reqs, chain, offset) == (done + todo, found)
        decreases |todo|, found.None?
      {
        var x := todo[0];
        if reqs[x].nomerge {
          todo := todo[1..];
        } else if reqs[x].End() == offset {
          found := Some(x);
        } else {
          ghost var rest := FindIn(reqs, todo[1..], offset).0;
          assert done + ([x] + rest) == (done + [x]) + rest;
          done, todo := done + [x], todo[1..];
        }
      }
      hash := hash[b := done + todo];
    }

    /**
     elv_merged_request.  A back merge has left x on the chain of its old end; a front merge has left the
     hash as it must be.
     */
    method MergedRequest(h: nat -> nat, x: nat, back: bool)
      requires x in reqs && if back then HashBut(State(), h, x) else HashOk(State(), h) && HashFull(State(), h)
      modifies this`hash, this`last
      ensures HashOk(State(), h) && HashFull(State(), h) && LastOk(State())
      ensures State() == old(State()).(
                hash := if back then Rehash(old(hash), h, x, reqs[x].End()) else old(hash), last := Some(x))
    {
      if back {
        RehashOk(State(), h, x);
        hash := HashDel(hash, x);
        hash := HashAdd(hash, h, x, reqs[x].End());
      }
      last := Some(x);
    }

    /** attempt_merge, and elv_merge_requests within. */
    method AttemptMerge(h: nat -> nat, conf: Conf, x: nat, y: nat, contig: bool) returns (merged: bool)
      requires x in reqs && y in reqs && x != y
      modifies this
      ensures merged == CanJoin(conf, old(reqs)[x], old(reqs)[y], contig)
      ensures State() == if merged then Join(old(State()), h, x, y, contig) else old(State())
    {
      hide HashDel, HashAdd;
      var a, b := reqs[x], reqs[y];
      if a.nomerge || b.nomerge || a.End() != b.sector || a.kind != b.kind || b.special || a.special
         || a.nr + b.nr > conf.maxSectors
      {
        return false;
      }
      var total := a.segs + b.segs;
      if contig && total > 0 {
        total := total - 1;
      }
      if total > conf.maxPhys || total > conf.maxHw {
        return false;
      }
      a := a.(bios := a.bios + b.bios, nr := a.nr + b.nr, segs := total);
      assert a == Joined(reqs[x], b, contig);
      reqs := reqs[x := a];
      hash := HashDel(hash, x);
      hash := HashAdd(hash, h, x, a.End());
      hash := HashDel(hash, y);
      reqs := reqs - {y};
      last := Some(x);
      return true;
    }
  }
}
