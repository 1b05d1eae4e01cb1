/**
 Which request elv_merge picks for a bio, and when __make_request and attempt_merge go through with a merge, told
 from the fields of the requests.
 */
module MergeChoice {
  import opened SortList
  import opened Merging

  /** Request x may take the bio: mergeable, of the bio's class and kind, not a driver's own, and the scheduler agrees. */
  ghost predicate Takes(s: St, x: nat, bio: Bio, allowed: set<nat>) {
    && x in s.reqs && !s.reqs[x].nomerge && !s.reqs[x].special && s.reqs[x].bios != []
    && s.reqs[x].bios[0].discard == bio.discard && s.reqs[x].kind == bio.kind && x in allowed
  }

  /** The request of last_merge takes the bio at its end or in front. */
  ghost predicate LastTakes(s: St, bio: Bio, allowed: set<nat>) {
    && s.last.Some? && Takes(s, s.last.value, bio, allowed)
    && (s.reqs[s.last.value].sector + s.reqs[s.last.value].nr == bio.sector ||
        s.reqs[s.last.value].sector == bio.sector + bio.nr)
  }

  /** A mergeable request that ends where the bio begins. */
  ghost predicate EndsThere(s: St, x: nat, bio: Bio) {
    x in s.reqs && !s.reqs[x].nomerge && s.reqs[x].sector + s.reqs[x].nr == bio.sector
  }

  /** The first such request on its chain is the one elv_rqhash_find gives. */
  lemma {:induction false} FindsFirst(reqs: map<nat, Req>, chain: seq<nat>, offset: nat, i: nat)
    requires forall x | x in chain :: x in reqs
    requires i < |chain| && !reqs[chain[i]].nomerge && reqs[chain[i]].sector + reqs[chain[i]].nr == offset
    requires forall j | 0 <= j < i :: reqs[chain[j]].nomerge || reqs[chain[j]].sector + reqs[chain[j]].nr != offset
    ensures FindIn(reqs, chain, offset).1 == Some(chain[i])
    decreases i
  {
    if i > 0 {
      assert reqs[chain[0]].nomerge || reqs[chain[0]].sector + reqs[chain[0]].nr != offset;
      FindsFirst(reqs, chain[1..], offset, i - 1);
    }
  }

  /**
   elv_merge misses no merge.  If the request of last_merge takes the bio it is picked, at the end before the front.
   If not, and merging is not off, a request ending where the bio begins is picked, if there is one and
   every such one takes the bio; the scheduler's candidate is picked if none does.
   Nothing is picked if and only if last_merge does not take the bio, and merging is off or neither the request
   the search finds nor the scheduler's candidate does.
   */
  lemma ElvMergeMissesNothing(s: St, h: nat -> nat, bio: Bio, allowed: set<nat>, nomerges: bool, front: Option<nat>)
    requires HashOk(s, h) && HashFull(s, h) && LastOk(s) && FrontOk(s, bio, allowed, front)
    ensures var pick, found := ElvMerge(s, h, bio, allowed, nomerges, front).1, HashFind(s, h, bio.sector).1;
            && (LastTakes(s, bio, allowed) ==>
                  pick == if s.reqs[s.last.value].sector + s.reqs[s.last.value].nr == bio.sector
                          then Back(s.last.value) else Front(s.last.value))
            && (!LastTakes(s, bio, allowed) && !nomerges ==>
                  && ((exists x :: EndsThere(s, x, bio)) && (forall x | EndsThere(s, x, bio) :: Takes(s, x, bio, allowed))
                      ==> pick.Back? && EndsThere(s, pick.x, bio))
                  && ((forall x | EndsThere(s, x, bio) :: !Takes(s, x, bio, allowed))
                      ==> pick == if front.Some? then Front(front.value) else NoMerge))
            && (pick.NoMerge? <==>
                  && !LastTakes(s, bio, allowed)
                  && (nomerges || (front.None? && (found.None? || !Takes(s, found.value, bio, allowed)))))
  {
    hide HashOk, HashFull, HashFind;
    FindAgrees(s, h, bio.sector);
    var found := HashFind(s, h, bio.sector).1;
    forall x | x in s.reqs ensures MergeOk(s.reqs[x], bio, x in allowed) <==> Takes(s, x, bio, allowed) {}
    if found.Some? {
      assert EndsThere(s, found.value, bio);
    }
    if exists x :: EndsThere(s, x, bio) {
      var x :| EndsThere(s, x, bio);
      assert s.reqs[x].End() == bio.sector;
    }
  }

  /** The limits of the queue leave room for a request of so many sectors and segments. */
  ghost predicate Room(conf: Conf, sectors: nat, segs: nat) {
    sectors <= conf.maxSectors && segs <= conf.maxPhys && segs <= conf.maxHw
  }

  /**
   A bio gets a request of its own if and only if it is a barrier, or nothing takes it, or what takes it has no room, which
   then takes no more.
   */
  lemma SubmitMergesIff(s: St, h: nat -> nat, conf: Conf, bio: Bio, e: Env)
    requires Inv(s, h, conf) && EnvOk(s, bio, e)
    ensures var r := Submit(s, h, conf, bio, e);
            var pick := ElvMerge(s, h, bio, e.allowed, e.nomerges, e.front).1;
            && (pick.NoMerge? || pick.x in s.reqs)
            && (e.newId in r.reqs <==>
                  || e.barrier || pick.NoMerge?
                  || !Room(conf, s.reqs[pick.x].nr + bio.nr, s.reqs[pick.x].segs + bio.segs))
            && (e.newId in r.reqs ==> r.reqs[e.newId].bios == [bio] && r.reqs[e.newId].nomerge == e.barrier)
            && (!e.barrier && !pick.NoMerge? && e.newId in r.reqs ==>
                  r.reqs == s.reqs[pick.x := s.reqs[pick.x].(nomerge := true)][e.newId := r.reqs[e.newId]])
  {
    hide HashOk, HashFull, ReqsOk, ElvMerge, MergeOk, CanJoin, HashAdd, Rehash, HashDel;
    ElvMergePicks(s, h, bio, e.allowed, e.nomerges, e.front);
  }

  /** A request and its neighbour may become one: mergeable both, adjacent, of one kind, not a driver's own, with room. */
  ghost predicate MayJoin(conf: Conf, a: Req, b: Req, contig: bool) {
    && !a.nomerge && !b.nomerge && !a.special && !b.special && a.kind == b.kind && a.sector + a.nr == b.sector
    && Room(conf, a.nr + b.nr, if contig && a.segs + b.segs > 0 then a.segs + b.segs - 1 else a.segs + b.segs)
  }

  /**
   A bio that goes on the end of x: the bios of the request are then those of x, the bio, and those of the
   latter request, which is gone, if and only if that one may join.
   */
  lemma BackMergeLeaves(s: St, h: nat -> nat, conf: Conf, bio: Bio, e: Env, x: nat)
    requires Inv(s, h, conf) && EnvOk(s, bio, e) && !e.barrier
    requires ElvMerge(s, h, bio, e.allowed, e.nomerges, e.front).1 == Back(x)
    requires x in s.reqs && Room(conf, s.reqs[x].nr + bio.nr, s.reqs[x].segs + bio.segs)
    ensures var r, a, y := Submit(s, h, conf, bio, e), s.reqs[x], Neighbour(e.latter, x);
            var longer := a.(bios := a.bios + [bio], nr := a.nr + bio.nr, segs := a.segs + bio.segs);
            && x in r.reqs && r.last == Some(x)
            && if y.Some? && MayJoin(conf, longer, s.reqs[y.value], e.contig) then
                 && r.reqs.Keys == s.reqs.Keys - {y.value} && r.reqs[x].sector == a.sector
                 && r.reqs[x].bios == a.bios + [bio] + s.reqs[y.value].bios && r.reqs[x].nr == a.nr + bio.nr + s.reqs[y.value].nr
               else r.reqs == s.reqs[x := longer]
  {
    hide HashOk, HashFull, ReqsOk, ElvMerge, MergeOk, HashAdd, Rehash, HashDel;
    ElvMergePicks(s, h, bio, e.allowed, e.nomerges, e.front);
  }

  /** And the same for a bio that goes in front of x, and the former request. */
  lemma FrontMergeLeaves(s: St, h: nat -> nat, conf: Conf, bio: Bio, e: Env, x: nat)
    requires Inv(s, h, conf) && EnvOk(s, bio, e) && !e.barrier
    requires ElvMerge(s, h, bio, e.allowed, e.nomerges, e.front).1 == Front(x)
    requires x in s.reqs && Room(conf, s.reqs[x].nr + bio.nr, s.reqs[x].segs + bio.segs)
    ensures var r, a, y := Submit(s, h, conf, bio, e), s.reqs[x], Neighbour(e.former, x);
            var longer := a.(sector := bio.sector, bios := [bio] + a.bios, nr := a.nr + bio.nr, segs := a.segs + bio.segs);
            if y.Some? && MayJoin(conf, s.reqs[y.value], longer, e.contig) then
              && r.reqs.Keys == s.reqs.Keys - {x} && r.last == y
              && r.reqs[y.value].sector == s.reqs[y.value].sector
              && r.reqs[y.value].bios == s.reqs[y.value].bios + ([bio] + a.bios)
              && r.reqs[y.value].nr == s.reqs[y.value].nr + a.nr + bio.nr
            else r.reqs == s.reqs[x := longer] && r.last == Some(x)
  {
    hide HashOk, HashFull, ReqsOk, ElvMerge, MergeOk, HashAdd, Rehash, HashDel;
    ElvMergePicks(s, h, bio, e.allowed, e.nomerges, e.front);
  }
}
