/**
 The deadline I/O scheduler of block/deadline-iosched.c: two directions (true for READ), each
 with a sorted tree and a FIFO, batches of sequential requests, and a limit on how often reads
 may be preferred while writes wait.
 */
module Deadline {
  import opened SortList

  /** sort_list, fifo_list and next_rq of one direction. */
  datatype Side = Side(tree: seq<nat>, fifo: seq<nat>, next: Option<nat>)

  /** The tunables: fifo_batch, writes_starved and fifo_expire. */
  datatype Conf = Conf(fifoBatch: nat, writesStarved: nat, readExpire: int, writeExpire: int) {
    function Expire(d: bool): int { if d then readExpire else writeExpire }
  }

  /** struct deadline_data, q->nr_sorted, the clock, and (history) the requests dispatched so far in order. */
  datatype St = St(
    t: Table, rd: Side, wr: Side, batching: nat, starved: nat, last: nat, nrSorted: int, now: int, out: seq<nat>)

  function Dir(s: St, d: bool): Side {
    if d then s.rd else s.wr
  }

  function PutDir(s: St, d: bool, side: Side): St {
    if d then s.(rd := side) else s.(wr := side)
  }

  // -------------------------------------------------------------------- operations

  /** deadline_remove_request on one direction. */
  function Removed(side: Side, x: nat): Side
    requires x in side.tree
  {
    Side(Without(side.tree, x), Without(side.fifo, x), if side.next == Some(x) then Next(side.tree, x) else side.next)
  }

  /** deadline_move_request. */
  function Move(s: St, x: nat): St
    requires x in s.t && x in Dir(s, s.t[x].sync).tree
  {
    var d := s.t[x].sync;
    var side := Dir(s, d).(next := Next(Dir(s, d).tree, x));
    var s1 := s.(last := s.t[x].End(), nrSorted := s.nrSorted - 1, out := s.out + [x]);
    PutDir(PutDir(s1, !d, Dir(s, !d).(next := None)), d, Removed(side, x))
  }

  /** deadline_add_rq_rb: whoever holds the sector goes to the dispatch queue. */
  function AddRb(s: St, x: nat): St
    requires x in s.t && Known(s.t, Dir(s, s.t[x].sync).tree)
    requires forall y | y in Dir(s, s.t[x].sync).tree :: s.t[y].sync == s.t[x].sync
  {
    var d := s.t[x].sync;
    var s1 := match Find(s.t, Dir(s, d).tree, s.t[x].sector)
      case None => s
      case Some(alias) => Move(s, alias);
    WithoutAll(s.t, Dir(s, d).tree);
    PutDir(s1, d, Dir(s1, d).(tree := Insert(s.t, Dir(s1, d).tree, x)))
  }

  lemma WithoutAll(t: Table, l: seq<nat>)
    requires Known(t, l)
    ensures forall x :: Known(t, Without(l, x))
  {
    forall x ensures Known(t, Without(l, x)) {
      forall i | 0 <= i < |Without(l, x)| ensures Without(l, x)[i] in t {
        assert Without(l, x)[i] in l;
      }
    }
  }

  /** deadline_add_request. */
  function Add(s: St, conf: Conf, x: nat, rq: Rq): St
    requires x !in s.t && Linked(s)
  {
    var d := rq.sync;
    FreshKnown(s, x, rq);
    var s1 := AddRb(s.(t := s.t[x := rq.(expires := s.now + conf.Expire(d))], nrSorted := s.nrSorted + 1), x);
    PutDir(s1, d, Dir(s1, d).(fifo := Dir(s1, d).fifo + [x]))
  }

  /** A bio of n sectors goes in front of x; deadline_merged_request repositions x. */
  function FrontMerge(s: St, x: nat, n: nat): St
    requires Linked(s) && Queued(s, x) && n <= s.t[x].sector
  {
    var d := s.t[x].sync;
    var t := s.t[x := s.t[x].(sector := s.t[x].sector - n, nr := s.t[x].nr + n)];
    var s1 := PutDir(s.(t := t), d, Dir(s, d).(tree := Without(Dir(s, d).tree, x)));
    WithoutKnown(s, d, x, t);
    AddRb(s1, x)
  }

  function BackMerge(s: St, x: nat, n: nat): St
    requires Queued(s, x)
  {
    s.(t := s.t[x := s.t[x].(nr := s.t[x].nr + n)])
  }

  /** deadline_merged_requests, after which elv_merge_requests counts one request less. */
  function MergeRequests(s: St, x: nat, y: nat): St
    requires Linked(s) && Queued(s, x) && Queued(s, y) && x != y && s.t[x].sync == s.t[y].sync
  {
    var d := s.t[x].sync;
    var side := Dir(s, d).(fifo := MergedFifo(s.t, Dir(s, d).fifo, x, y));
    PutDir(s.(t := MergedTable(s.t, x, y), nrSorted := s.nrSorted - 1), d, Removed(side, y))
  }

  // --------------------------------------------------------------------- dispatching

  /** From the label dispatch_request on. */
  function Go(s: St, x: nat): St
    requires Queued(s, x)
  {
    Move(s.(batching := s.batching + 1), x)
  }

  /** From the label dispatch_find_request on: the oldest one if it expired or there is no next one. */
  function Pick(s: St, d: bool): (x: nat)
    requires Linked(s) && Dir(s, d).fifo != []
    ensures Queued(s, x) && s.t[x].sync == d
  {
    var head := Dir(s, d).fifo[0];
    if s.now > s.t[head].expires || Dir(s, d).next.None? then head else Dir(s, d).next.value
  }

  /** Start a batch in direction d. */
  function Batch(s: St, d: bool): St
    requires Linked(s) && Dir(s, d).fifo != []
  {
    Go(s.(batching := 0), Pick(s, d))
  }

  /** deadline_dispatch_requests. */
  function Dispatch(s: St, conf: Conf): (St, bool)
    requires Linked(s)
  {
    var anyReads, anyWrites := s.rd.fifo != [], s.wr.fifo != [];
    var rq := if s.wr.next.Some? then s.wr.next else s.rd.next;
    if rq.Some? && s.batching < conf.fifoBatch then (Go(s, rq.value), true)
    else if anyReads && !(anyWrites && s.starved >= conf.writesStarved) then
      (Batch(s.(starved := if anyWrites then s.starved + 1 else s.starved), true), true)
    else if anyWrites then (Batch(s.(starved := 0), false), true)
    else (s, false)
  }

  // ---------------------------------------------------------------------- invariants

  predicate Queued(s: St, x: nat) {
    x in s.t && x in Dir(s, s.t[x].sync).tree
  }

  ghost predicate SideOk(t: Table, d: bool, side: Side) {
    && Sorted(t, side.tree) && Distinct(side.fifo)
    && (forall x :: x in side.tree <==> x in side.fifo)
    && (forall x | x in side.tree :: x in t && t[x].sync == d)
    && (side.next.Some? ==> side.next.value in side.tree)
  }

  /** Tree and FIFO hold the same requests, nr_sorted is their number, and at most one direction is in a batch. */
  ghost predicate Linked(s: St) {
    && SideOk(s.t, true, s.rd) && SideOk(s.t, false, s.wr)
    && s.nrSorted == |s.rd.tree| + |s.wr.tree|
    && (s.rd.next.None? || s.wr.next.None?)
  }

  lemma FreshKnown(s: St, x: nat, rq: Rq)
    requires Linked(s) && x !in s.t
    ensures Known(s.t[x := rq], s.rd.tree) && Known(s.t[x := rq], s.wr.tree)
    ensures x !in s.rd.tree && x !in s.wr.tree
  {
  }

  lemma WithoutKnown(s: St, d: bool, x: nat, t: Table)
    requires Linked(s) && forall y | y in s.t :: y in t && t[y].sync == s.t[y].sync
    ensures var l := Without(Dir(s, d).tree, x); Known(t, l) && forall y | y in l :: t[y].sync == d
  {
    var l := Without(Dir(s, d).tree, x);
    forall i | 0 <= i < |l| ensures l[i] in t {
      assert l[i] in l;
    }
  }

  // ---------------------------------------------------------- the indexes stay linked

  lemma QueuedKnown(s: St, d: bool, x: nat)
    requires Linked(s) && x in Dir(s, d).tree
    ensures Queued(s, x) && s.t[x].sync == d && x !in Dir(s, !d).tree && x in Dir(s, d).fifo
  {
  }

  lemma SideOf(s: St, d: bool)
    requires Linked(s)
    ensures SideOk(s.t, d, Dir(s, d)) && Sorted(s.t, Dir(s, d).tree)
  {
  }

  /** Removing x from both indexes; its successor in the tree, if any, is still there. */
  lemma TakenOut(t: Table, side: Side, x: nat)
    requires Sorted(t, side.tree) && Distinct(side.fifo) && x in side.tree
    ensures Sorted(t, Without(side.tree, x)) && Distinct(Without(side.fifo, x))
    ensures |Without(side.tree, x)| == |side.tree| - 1
    ensures Next(side.tree, x).Some? ==> Next(side.tree, x).value in side.tree && Next(side.tree, x).value != x
  {
    WithoutSorted(t, side.tree, x);
    WithoutDistinct(side.fifo, x);
    SortedDistinct(t, side.tree);
    WithoutLength(side.tree, x);
  }

  lemma RemovedOk(t: Table, d: bool, side: Side, x: nat)
    requires SideOk(t, d, side) && x in side.tree
    ensures SideOk(t, d, Removed(side, x)) && |Removed(side, x).tree| == |side.tree| - 1
  {
    TakenOut(t, side, x);
    hide Sorted, Distinct;
  }

  /** The indexes agree except that x, which may be cached, is not in the tree. */
  ghost predicate SideBut(t: Table, d: bool, side: Side, x: nat) {
    && Sorted(t, side.tree) && Distinct(side.fifo)
    && (forall y | y != x :: y in side.tree <==> y in side.fifo) && x !in side.tree
    && (forall y | y in side.tree :: y in t && t[y].sync == d)
    && (side.next.Some? ==> side.next.value in side.tree || side.next.value == x)
  }

  /** One direction in deadline_move_request. */
  function SideMove(side: Side, x: nat): Side
    requires x in side.tree
  {
    Side(Without(side.tree, x), Without(side.fifo, x), Next(side.tree, x))
  }

  lemma MoveFields(s: St, x: nat)
    requires x in s.t && x in Dir(s, s.t[x].sync).tree
    requires Distinct(Dir(s, s.t[x].sync).tree)
    ensures var d, r := s.t[x].sync, Move(s, x);
            && Dir(r, d) == SideMove(Dir(s, d), x) && Dir(r, !d) == Dir(s, !d).(next := None)
            && r.t == s.t && r.nrSorted == s.nrSorted - 1 && r.out == s.out + [x]
            && r.batching == s.batching && r.starved == s.starved && r.now == s.now
  {
    hide Without;
    var tree := Dir(s, s.t[x].sync).tree;
    assert Next(tree, x) != Some(x);
  }

  lemma SideMoveBut(t: Table, d: bool, side: Side, a: nat, x: nat)
    requires SideBut(t, d, side, x) && a in side.tree
    ensures SideBut(t, d, SideMove(side, a), x) && |SideMove(side, a).tree| == |side.tree| - 1
  {
    TakenOut(t, side, a);
    hide Sorted, Distinct;
  }

  lemma SideMoveOk(t: Table, d: bool, side: Side, x: nat)
    requires SideOk(t, d, side) && x in side.tree
    ensures SideOk(t, d, SideMove(side, x)) && |SideMove(side, x).tree| == |side.tree| - 1
  {
    TakenOut(t, side, x);
    hide Sorted, Distinct;
  }

  lemma MoveLinked(s: St, x: nat)
    requires Linked(s) && Queued(s, x)
    ensures Linked(Move(s, x))
  {
    hide SideOk, SideMove, Move;
    var d := s.t[x].sync;
    SideOf(s, d);
    SideOf(s, !d);
    SortedDistinct(s.t, Dir(s, d).tree);
    MoveFields(s, x);
    SideMoveOk(s.t, d, Dir(s, d), x);
    NextNone(s.t, !d, Dir(s, !d));
  }

  lemma NextNone(t: Table, d: bool, side: Side)
    requires SideOk(t, d, side)
    ensures SideOk(t, d, side.(next := None))
  {
    hide Sorted, Distinct;
  }

  /** A name with a place in the FIFO joins the tree. */
  lemma JoinsTree(t: Table, d: bool, side: Side, x: nat)
    requires SideBut(t, d, side, x) && x in t && t[x].sync == d && x in side.fifo
    requires Find(t, side.tree, t[x].sector).None?
    ensures SideOk(t, d, side.(tree := Insert(t, side.tree, x)))
  {
    InsertSorted(t, side.tree, x);
    hide Sorted, Distinct;
  }

  /** All is linked except that x, already counted, is not in its tree. */
  ghost predicate LinkedBut(s: St, d: bool, x: nat) {
    && SideBut(s.t, d, Dir(s, d), x) && SideOk(s.t, !d, Dir(s, !d))
    && s.nrSorted == |s.rd.tree| + |s.wr.tree| + 1
    && (s.rd.next.None? || s.wr.next.None?)
  }

  /** What deadline_add_rq_rb leaves: x joins a tree from which an alias, if any, has moved on. */
  lemma AddRbShape(s: St, x: nat) returns (side: Side)
    requires x in s.t && LinkedBut(s, s.t[x].sync, x)
    ensures Known(s.t, Dir(s, s.t[x].sync).tree) && forall y | y in Dir(s, s.t[x].sync).tree :: s.t[y].sync == s.t[x].sync
    ensures var d, r := s.t[x].sync, AddRb(s, x);
            && r.t == s.t && r.batching == s.batching && r.starved == s.starved && r.now == s.now
            && SideBut(s.t, d, side, x) && Find(s.t, side.tree, s.t[x].sector).None?
            && Dir(r, d) == side.(tree := Insert(s.t, side.tree, x)) && SideOk(s.t, !d, Dir(r, !d))
            && r.nrSorted == |r.rd.tree| + |r.wr.tree| && (r.rd.next.None? || r.wr.next.None?)
            && (x in Dir(s, d).fifo ==> x in side.fifo) && (x !in Dir(s, d).fifo ==> x !in side.fifo)
            && (side == Dir(s, d) || exists a :: a in Dir(s, d).tree && side == SideMove(Dir(s, d), a))
            && (Dir(r, !d) == Dir(s, !d) || Dir(r, !d) == Dir(s, !d).(next := None))
  {
    hide Insert, Without, Next;
    var d := s.t[x].sync;
    side := Dir(s, d);
    match Find(s.t, side.tree, s.t[x].sector) {
      case None =>
      case Some(a) =>
        SortedDistinct(s.t, side.tree);
        MoveFields(s, a);
        SideMoveBut(s.t, d, side, a, x);
        OneAtSector(s.t, side.tree, a);
        NextNone(s.t, !d, Dir(s, !d));
        hide Move, SideOk, Sorted, Distinct, Known;
        side := SideMove(side, a);
    }
  }

  lemma FreshBut(s: St, x: nat, rq: Rq)
    requires Linked(s) && x !in s.t
    ensures LinkedBut(s.(t := s.t[x := rq], nrSorted := s.nrSorted + 1), rq.sync, x) && x !in Dir(s, rq.sync).fifo
  {
    SortedFrame(s.t, s.t[x := rq], s.rd.tree);
    SortedFrame(s.t, s.t[x := rq], s.wr.tree);
    hide Sorted, Distinct;
  }

  lemma AddLinked(s: St, conf: Conf, x: nat, rq: Rq)
    requires Linked(s) && x !in s.t
    ensures Linked(Add(s, conf, x, rq))
  {
    hide AddRb, SideOk, SideBut, Insert, Without, SideMove;
    var d, rq' := rq.sync, rq.(expires := s.now + conf.Expire(rq.sync));
    FreshBut(s, x, rq');
    var side := AddRbShape(s.(t := s.t[x := rq'], nrSorted := s.nrSorted + 1), x);
    TailedBut(s.t[x := rq'], d, side, x);
    JoinsTree(s.t[x := rq'], d, side.(fifo := side.fifo + [x]), x);
  }

  lemma TailedBut(t: Table, d: bool, side: Side, x: nat)
    requires SideBut(t, d, side, x) && x !in side.fifo
    ensures SideBut(t, d, side.(fifo := side.fifo + [x]), x)
  {
    hide Sorted;
  }

  lemma LeavesSide(t: Table, t': Table, d: bool, side: Side, x: nat)
    requires SideOk(t, d, side) && x in side.tree
    requires forall y | y in t :: y in t' && t'[y].sync == t[y].sync && (y != x ==> t'[y].sector == t[y].sector)
    ensures var r := side.(tree := Without(side.tree, x)); SideBut(t', d, r, x) && |r.tree| == |side.tree| - 1
  {
    TakenOut(t, side, x);
    SortedFrame(t, t', Without(side.tree, x));
    hide Sorted, Distinct, Next;
  }

  lemma SideFrame(t: Table, t': Table, d: bool, side: Side)
    requires SideOk(t, d, side)
    requires forall y | y in side.tree :: y in t' && t'[y].sync == t[y].sync && t'[y].sector == t[y].sector
    ensures SideOk(t', d, side)
  {
    SortedFrame(t, t', side.tree);
    hide Sorted, Distinct;
  }

  /** x leaves the tree to come back at a smaller sector. */
  lemma LeavesTree(s: St, x: nat, n: nat)
    requires Linked(s) && Queued(s, x) && n <= s.t[x].sector
    ensures var d := s.t[x].sync;
            var t := s.t[x := s.t[x].(sector := s.t[x].sector - n, nr := s.t[x].nr + n)];
            && LinkedBut(PutDir(s.(t := t), d, Dir(s, d).(tree := Without(Dir(s, d).tree, x))), d, x)
            && x in Dir(s, d).fifo
  {
    hide SideOk, SideBut, Without;
    var d := s.t[x].sync;
    var t := s.t[x := s.t[x].(sector := s.t[x].sector - n, nr := s.t[x].nr + n)];
    QueuedKnown(s, d, x);
    SideOf(s, d);
    SideOf(s, !d);
    LeavesSide(s.t, t, d, Dir(s, d), x);
    TreeKnown(s, !d);
    SideFrame(s.t, t, !d, Dir(s, !d));
  }

  lemma TreeKnown(s: St, d: bool)
    requires Linked(s)
    ensures forall x | x in Dir(s, d).tree :: x in s.t && s.t[x].sync == d
  {
  }

  lemma FrontMergeLinked(s: St, x: nat, n: nat)
    requires Linked(s) && Queued(s, x) && n <= s.t[x].sector
    ensures Linked(FrontMerge(s, x, n))
  {
    hide AddRb, SideOk, SideBut, Insert, Without, SideMove;
    var d := s.t[x].sync;
    var t := s.t[x := s.t[x].(sector := s.t[x].sector - n, nr := s.t[x].nr + n)];
    LeavesTree(s, x, n);
    var side := AddRbShape(PutDir(s.(t := t), d, Dir(s, d).(tree := Without(Dir(s, d).tree, x))), x);
    JoinsTree(t, d, side, x);
  }

  lemma TableChange(s: St, t: Table)
    requires Linked(s) && Sorted(t, s.rd.tree) && Sorted(t, s.wr.tree)
    requires forall x | x in s.t :: x in t && t[x].sync == s.t[x].sync
    ensures Linked(s.(t := t))
  {
    hide Sorted, Distinct;
  }

  lemma SizeChange(s: St, t: Table)
    requires Linked(s)
    requires forall x | x in s.t :: x in t && t[x].sync == s.t[x].sync && t[x].sector == s.t[x].sector
    ensures Linked(s.(t := t))
  {
    SortedFrame(s.t, t, s.rd.tree);
    SortedFrame(s.t, t, s.wr.tree);
    TableChange(s, t);
    hide Linked;
  }

  lemma MergeLinked(s: St, x: nat, y: nat)
    requires Linked(s) && Queued(s, x) && Queued(s, y) && x != y && s.t[x].sync == s.t[y].sync
    ensures Linked(MergeRequests(s, x, y))
  {
    hide Removed, Sorted, MoveAfter;
    var d, t := s.t[x].sync, MergedTable(s.t, x, y);
    SizeChange(s, t);
    var side := Dir(s, d).(fifo := MergedFifo(s.t, Dir(s, d).fifo, x, y));
    MoveAfterNames(Dir(s, d).fifo, x, y);
    assert SideOk(t, d, side);
    hide SideOk, MergedTable, MergedFifo;
    RemovedOk(t, d, side, y);
    RemovedNext(side, y);
  }

  lemma RemovedNext(side: Side, y: nat)
    requires y in side.tree
    ensures side.next.None? ==> Removed(side, y).next.None?
  {
  }

  lemma GoLinked(s: St, x: nat)
    requires Linked(s) && Queued(s, x)
    ensures var r := Go(s, x);
            && Linked(r) && r.out == s.out + [x] && r.nrSorted == s.nrSorted - 1 && r.t == s.t
            && r.batching == s.batching + 1 && r.starved == s.starved && r.now == s.now
  {
    hide SideOk, Move;
    var s1 := s.(batching := s.batching + 1);
    SideOf(s1, s.t[x].sync);
    SortedDistinct(s1.t, Dir(s1, s.t[x].sync).tree);
    MoveLinked(s1, x);
    MoveFields(s1, x);
  }

  lemma NextQueued(s: St, d: bool)
    requires Linked(s) && Dir(s, d).next.Some?
    ensures Queued(s, Dir(s, d).next.value) && s.t[Dir(s, d).next.value].sync == d
  {
  }

  lemma FifoFull(s: St, d: bool)
    requires Linked(s)
    ensures Dir(s, d).fifo == [] <==> Dir(s, d).tree == []
    ensures Dir(s, d).next.Some? ==> Dir(s, d).fifo != []
  {
    assert Dir(s, d).tree != [] ==> Dir(s, d).tree[0] in Dir(s, d).fifo;
    assert Dir(s, d).fifo != [] ==> Dir(s, d).fifo[0] in Dir(s, d).tree;
  }

  /**
   A call dispatches one request of x's direction and counts it in batching, or says that nothing
   is queued.  In a new batch, waiting writes are counted as starved once more by a read and no
   longer by a write.
   */
  lemma DispatchShape(s: St, conf: Conf) returns (x: nat)
    requires Linked(s)
    ensures var (r, done) := Dispatch(s, conf);
            if done then
              && Linked(r) && Queued(s, x) && r.out == s.out + [x] && r.nrSorted == s.nrSorted - 1
              && r.t == s.t && r.now == s.now
              && ((s.batching < conf.fifoBatch && r.batching == s.batching + 1 && r.starved == s.starved)
                  || (r.batching == 1 &&
                      if !s.t[x].sync then r.starved == 0
                      else if s.wr.fifo == [] then r.starved == s.starved
                      else s.starved < conf.writesStarved && r.starved == s.starved + 1))
            else r == s && s.rd.fifo == [] && s.wr.fifo == []
  {
    hide SideOk, Go, Pick;
    x := 0;
    var rq := if s.wr.next.Some? then s.wr.next else s.rd.next;
    if rq.Some? && s.batching < conf.fifoBatch {
      x := rq.value;
      NextQueued(s, s.wr.next.None?);
      GoLinked(s, x);
    } else if s.rd.fifo != [] && !(s.wr.fifo != [] && s.starved >= conf.writesStarved) {
      var s1 := s.(starved := if s.wr.fifo != [] then s.starved + 1 else s.starved);
      x := Pick(s1, true);
      GoLinked(s1.(batching := 0), x);
    } else if s.wr.fifo != [] {
      var s1 := s.(starved := 0);
      x := Pick(s1, false);
      GoLinked(s1.(batching := 0), x);
    }
  }

  // ---------------------------------------------------------------------------- runs

  datatype Step =
    | AddStep(x: nat, rq: Rq)
    | DispatchStep
    | BackMergeStep(x: nat, n: nat)
    | FrontMergeStep(x: nat, n: nat)
    | MergeStep(x: nat, y: nat)
    | TickStep(to: int)

  predicate Enabled(s: St, step: Step) {
    match step
    case AddStep(x, _) => x !in s.t
    case DispatchStep => true
    case BackMergeStep(x, _) => Queued(s, x)
    case FrontMergeStep(x, n) => Queued(s, x) && n <= s.t[x].sector
    case MergeStep(x, y) => Queued(s, x) && Queued(s, y) && x != y && s.t[x].sync == s.t[y].sync
    case TickStep(to) => to >= s.now
  }

  function Apply(s: St, conf: Conf, step: Step): St
    requires Linked(s) && Enabled(s, step)
  {
    match step
    case AddStep(x, rq) => Add(s, conf, x, rq)
    case DispatchStep => Dispatch(s, conf).0
    case BackMergeStep(x, n) => BackMerge(s, x, n)
    case FrontMergeStep(x, n) => FrontMerge(s, x, n)
    case MergeStep(x, y) => MergeRequests(s, x, y)
    case TickStep(to) => s.(now := to)
  }

  lemma BackMergeLinked(s: St, x: nat, n: nat)
    requires Linked(s) && Queued(s, x)
    ensures Linked(BackMerge(s, x, n))
  {
    SizeChange(s, BackMerge(s, x, n).t);
  }

  /** No step, aliases and merges included, breaks the indexes or the count. */
  lemma StepLinked(s: St, conf: Conf, step: Step)
    requires Linked(s) && Enabled(s, step)
    ensures Linked(Apply(s, conf, step))
  {
    hide SideOk, Add, Dispatch, BackMerge, FrontMerge, MergeRequests;
    match step
    case AddStep(x, rq) => AddLinked(s, conf, x, rq);
    case DispatchStep => var x := DispatchShape(s, conf);
    case BackMergeStep(x, n) => BackMergeLinked(s, x, n);
    case FrontMergeStep(x, n) => FrontMergeLinked(s, x, n);
    case MergeStep(x, y) => MergeLinked(s, x, y);
    case TickStep(to) =>
  }

  // --------------------------------------------------------------- no endless starvation

  /** How many more reads can be chosen while a write waits. */
  function Left(s: St, conf: Conf): int {
    (conf.writesStarved - s.starved) * Max(1, conf.fifoBatch) + Max(0, conf.fifoBatch - s.batching)
  }

  function Max(a: int, b: int): int {
    if a > b then a else b
  }

  lemma AddCounters(s: St, conf: Conf, x: nat, rq: Rq)
    requires Linked(s) && x !in s.t
    ensures Add(s, conf, x, rq).starved == s.starved && Add(s, conf, x, rq).batching == s.batching
  {
    hide SideOk, SideBut, AddRb, Insert, Without, SideMove;
    var rq' := rq.(expires := s.now + conf.Expire(rq.sync));
    FreshBut(s, x, rq');
    var side := AddRbShape(s.(t := s.t[x := rq'], nrSorted := s.nrSorted + 1), x);
  }

  lemma FrontMergeCounters(s: St, x: nat, n: nat)
    requires Linked(s) && Queued(s, x) && n <= s.t[x].sector
    ensures FrontMerge(s, x, n).starved == s.starved && FrontMerge(s, x, n).batching == s.batching
  {
    hide SideOk, SideBut, AddRb, Insert, Without, SideMove;
    var d := s.t[x].sync;
    var t := s.t[x := s.t[x].(sector := s.t[x].sector - n, nr := s.t[x].nr + n)];
    LeavesTree(s, x, n);
    var side := AddRbShape(PutDir(s.(t := t), d, Dir(s, d).(tree := Without(Dir(s, d).tree, x))), x);
  }

  /** Steps other than dispatch do not touch the two counters. */
  lemma CountersStay(s: St, conf: Conf, step: Step)
    requires Linked(s) && Enabled(s, step) && !step.DispatchStep?
    ensures Apply(s, conf, step).starved == s.starved && Apply(s, conf, step).batching == s.batching
  {
    hide SideOk, Add, FrontMerge, Removed;
    match step
    case AddStep(x, rq) => AddCounters(s, conf, x, rq);
    case FrontMergeStep(x, n) => FrontMergeCounters(s, x, n);
    case _ =>
  }

  ghost predicate ChoosesRead(s: St, conf: Conf)
    requires Linked(s)
  {
    var (r, done) := Dispatch(s, conf);
    done && |r.out| == |s.out| + 1 && r.out[|s.out|] in s.t && s.t[r.out[|s.out|]].sync
  }

  lemma ReadsUseUp(s: St, conf: Conf)
    requires Linked(s) && s.starved <= conf.writesStarved && s.wr.fifo != [] && ChoosesRead(s, conf)
    ensures var r := Dispatch(s, conf).0; Left(r, conf) < Left(s, conf) && r.starved <= conf.writesStarved
  {
    hide Linked, Dispatch;
    var x := DispatchShape(s, conf);
    var r := Dispatch(s, conf).0;
    var m := Max(1, conf.fifoBatch);
    if r.starved == s.starved + 1 {
      assert (conf.writesStarved - s.starved - 1) * m == (conf.writesStarved - s.starved) * m - m;
    }
  }

  ghost predicate Runs(s: St, conf: Conf, steps: seq<Step>, r: St)
    requires Linked(s)
    decreases |steps|
  {
    if steps == [] then r == s
    else Enabled(s, steps[0]) && (StepLinked(s, conf, steps[0]); Runs(Apply(s, conf, steps[0]), conf, steps[1..], r))
  }

  /** A run in which every dispatch call chooses a read although a write is queued. */
  ghost predicate StarvingRun(s: St, conf: Conf, steps: seq<Step>, r: St)
    requires Linked(s)
    decreases |steps|
  {
    if steps == [] then r == s
    else
      && Enabled(s, steps[0]) && (steps[0].DispatchStep? ==> s.wr.fifo != [] && ChoosesRead(s, conf))
      && (StepLinked(s, conf, steps[0]); StarvingRun(Apply(s, conf, steps[0]), conf, steps[1..], r))
  }

  function Dispatches(steps: seq<Step>): nat {
    if steps == [] then 0 else (if steps[0].DispatchStep? then 1 else 0) + Dispatches(steps[1..])
  }

  lemma {:induction false} StarvingRunUsesUp(s: St, conf: Conf, steps: seq<Step>, r: St)
    requires Linked(s) && s.starved <= conf.writesStarved && StarvingRun(s, conf, steps, r)
    ensures Dispatches(steps) <= Left(s, conf)
    decreases |steps|
  {
    if steps == [] {
      LeftBounds(s, conf);
    } else {
      hide Linked, Left, Dispatch;
      var s' := Apply(s, conf, steps[0]);
      StepLinked(s, conf, steps[0]);
      if steps[0].DispatchStep? {
        ReadsUseUp(s, conf);
      } else {
        CountersStay(s, conf, steps[0]);
        LeftSame(s, s', conf);
      }
      StarvingRunUsesUp(s', conf, steps[1..], r);
    }
  }

  lemma LeftSame(s: St, r: St, conf: Conf)
    requires r.starved == s.starved && r.batching == s.batching
    ensures Left(r, conf) == Left(s, conf)
  {
  }

  lemma LeftBounds(s: St, conf: Conf)
    requires s.starved <= conf.writesStarved
    ensures 0 <= Left(s, conf) <= (conf.writesStarved + 1) * Max(1, conf.fifoBatch)
  {
    var m, k := Max(1, conf.fifoBatch), conf.writesStarved - s.starved;
    assert 0 <= k * m <= conf.writesStarved * m;
    assert (conf.writesStarved + 1) * m == conf.writesStarved * m + m;
  }

  lemma StepStarved(s: St, conf: Conf, step: Step)
    requires Linked(s) && Enabled(s, step) && s.starved <= conf.writesStarved
    ensures Apply(s, conf, step).starved <= conf.writesStarved
  {
    hide Linked, Dispatch;
    if step.DispatchStep? {
      var x := DispatchShape(s, conf);
    } else {
      CountersStay(s, conf, step);
    }
  }

  /** deadline_init_queue. */
  ghost predicate Fresh(s: St) {
    s.rd == Side([], [], None) && s.wr == Side([], [], None) && s.batching == 0 && s.starved == 0 && s.nrSorted == 0
  }

  lemma {:induction false} RunStarved(s: St, conf: Conf, steps: seq<Step>, r: St)
    requires Linked(s) && s.starved <= conf.writesStarved && Runs(s, conf, steps, r)
    ensures Linked(r) && r.starved <= conf.writesStarved
    decreases |steps|
  {
    if steps != [] {
      hide Linked, Apply;
      StepLinked(s, conf, steps[0]);
      StepStarved(s, conf, steps[0]);
      RunStarved(Apply(s, conf, steps[0]), conf, steps[1..], r);
    }
  }

  /**
   From any state a scheduler can reach, however requests are added, merged and aliased in between,
   at most (writes_starved + 1) * max(1, fifo_batch) dispatch calls in a row choose a read while a
   write is queued.
   */
  lemma WritesAreNotStarved(init: St, conf: Conf, before: seq<Step>, s: St, steps: seq<Step>, r: St)
    requires Fresh(init) && Runs(init, conf, before, s) && Linked(s) && StarvingRun(s, conf, steps, r)
    ensures Dispatches(steps) <= (conf.writesStarved + 1) * Max(1, conf.fifoBatch)
  {
    RunStarved(init, conf, before, s);
    hide Linked;
    StarvingRunUsesUp(s, conf, steps, r);
    LeftBounds(s, conf);
  }

  /** The two indexes and nr_sorted agree in every state a scheduler can reach. */
  lemma IndexesAgree(init: St, conf: Conf, steps: seq<Step>, s: St)
    requires Fresh(init) && Runs(init, conf, steps, s)
    ensures forall x :: x in s.rd.tree <==> x in s.rd.fifo
    ensures forall x :: x in s.wr.tree <==> x in s.wr.fifo
    ensures s.nrSorted == |s.rd.tree| + |s.wr.tree|
    ensures s.rd.next.None? || s.wr.next.None?
  {
    RunStarved(init, conf, steps, s);
    hide Sorted;
  }

  // ---------------------------------------------------------------- FIFOs in expiry order

  ghost predicate SideInOrder(t: Table, side: Side, limit: int) {
    Expiring(t, side.fifo) && forall x | x in side.fifo :: x in t && t[x].expires <= limit
  }

  ghost predicate InOrder(s: St, conf: Conf) {
    SideInOrder(s.t, s.rd, s.now + conf.readExpire) && SideInOrder(s.t, s.wr, s.now + conf.writeExpire)
  }

  lemma WithoutInOrder(t: Table, side: Side, limit: int, x: nat, next: Option<nat>, tree: seq<nat>)
    requires SideInOrder(t, side, limit)
    ensures SideInOrder(t, Side(tree, Without(side.fifo, x), next), limit)
  {
    WithoutExpiring(t, side.fifo, x);
    hide Expiring;
  }

  lemma FrameInOrder(t: Table, t': Table, side: Side, limit: int, side': Side, limit': int)
    requires SideInOrder(t, side, limit) && side'.fifo == side.fifo && limit <= limit'
    requires forall x | x in side.fifo :: x in t' && t'[x].expires == t[x].expires
    ensures SideInOrder(t', side', limit')
  {
    ExpiringFrame(t, t', side.fifo);
    hide Expiring;
  }

  lemma TailInOrder(t: Table, side: Side, limit: int, x: nat, tree: seq<nat>)
    requires SideInOrder(t, side, limit) && x in t && t[x].expires == limit
    ensures SideInOrder(t, side.(fifo := side.fifo + [x], tree := tree), limit)
  {
    var l := side.fifo + [x];
    forall i | 0 <= i < |side.fifo| ensures t[l[i]].expires <= limit {
      assert l[i] in side.fifo;
    }
  }

  lemma MoveInOrder(s: St, conf: Conf, x: nat)
    requires Linked(s) && Queued(s, x) && InOrder(s, conf)
    ensures InOrder(Move(s, x), conf)
  {
    hide SideOk, Move, SideInOrder, Without;
    var d := s.t[x].sync;
    SideOf(s, d);
    SortedDistinct(s.t, Dir(s, d).tree);
    MoveFields(s, x);
    var r := Move(s, x);
    WithoutInOrder(s.t, Dir(s, d), s.now + conf.Expire(d), x, Dir(r, d).next, Dir(r, d).tree);
    SelfInOrder(s.t, Dir(s, !d), s.now + conf.Expire(!d), Dir(r, !d));
  }

  lemma SelfInOrder(t: Table, side: Side, limit: int, side': Side)
    requires SideInOrder(t, side, limit) && side'.fifo == side.fifo
    ensures SideInOrder(t, side', limit)
  {
  }

  lemma DispatchInOrder(s: St, conf: Conf)
    requires Linked(s) && InOrder(s, conf)
    ensures InOrder(Dispatch(s, conf).0, conf)
  {
    hide SideOk, Move, SideInOrder, Pick;
    var rq := if s.wr.next.Some? then s.wr.next else s.rd.next;
    if rq.Some? && s.batching < conf.fifoBatch {
      NextQueued(s, s.wr.next.None?);
      MoveInOrder(s.(batching := s.batching + 1), conf, rq.value);
    } else if s.rd.fifo != [] && !(s.wr.fifo != [] && s.starved >= conf.writesStarved) {
      var s1 := s.(starved := if s.wr.fifo != [] then s.starved + 1 else s.starved);
      MoveInOrder(s1.(batching := 0).(batching := 1), conf, Pick(s1, true));
    } else if s.wr.fifo != [] {
      var s1 := s.(starved := 0);
      MoveInOrder(s1.(batching := 0).(batching := 1), conf, Pick(s1, false));
    }
  }

  lemma SideMoveInOrder(t: Table, side: Side, limit: int, a: nat)
    requires SideInOrder(t, side, limit) && a in side.tree
    ensures SideInOrder(t, SideMove(side, a), limit)
  {
    hide SideInOrder, Without, Next;
    WithoutInOrder(t, side, limit, a, Next(side.tree, a), Without(side.tree, a));
  }

  /** What deadline_add_rq_rb leaves of a FIFO is in order if the FIFO was. */
  lemma AddRbInOrder(s: St, conf: Conf, x: nat)
    requires x in s.t && LinkedBut(s, s.t[x].sync, x) && InOrder(s, conf)
    ensures InOrder(AddRb(s, x), conf)
  {
    hide AddRb, LinkedBut, SideBut, SideOk, Insert, Without, SideInOrder, SideMove, Find, Known;
    var d := s.t[x].sync;
    var side := AddRbShape(s, x);
    var r := AddRb(s, x);
    SelfInOrder(s.t, Dir(s, !d), s.now + conf.Expire(!d), Dir(r, !d));
    if side != Dir(s, d) {
      var a :| a in Dir(s, d).tree && side == SideMove(Dir(s, d), a);
      SideMoveInOrder(s.t, Dir(s, d), s.now + conf.Expire(d), a);
    }
    SelfInOrder(s.t, side, s.now + conf.Expire(d), Dir(r, d));
  }

  lemma AddInOrder(s: St, conf: Conf, x: nat, rq: Rq)
    requires Linked(s) && x !in s.t && InOrder(s, conf)
    ensures InOrder(Add(s, conf, x, rq), conf)
  {
    hide AddRb, SideBut, SideOk, SideInOrder, LinkedBut;
    var d, rq' := rq.sync, rq.(expires := s.now + conf.Expire(rq.sync));
    var s0 := s.(t := s.t[x := rq'], nrSorted := s.nrSorted + 1);
    FreshBut(s, x, rq');
    FreshFifos(s, conf, x);
    FrameInOrder(s.t, s0.t, s.rd, s.now + conf.readExpire, s.rd, s.now + conf.readExpire);
    FrameInOrder(s.t, s0.t, s.wr, s.now + conf.writeExpire, s.wr, s.now + conf.writeExpire);
    AddRbInOrder(s0, conf, x);
    var side := AddRbShape(s0, x);
    var s1 := AddRb(s0, x);
    TailInOrder(s0.t, Dir(s1, d), s.now + conf.Expire(d), x, Dir(s1, d).tree);
  }

  lemma FreshFifos(s: St, conf: Conf, x: nat)
    requires InOrder(s, conf) && x !in s.t
    ensures forall y | y in s.rd.fifo || y in s.wr.fifo :: y in s.t && y != x
  {
  }

  /** Fields other than the expiry times do not matter. */
  lemma TableInOrder(s: St, conf: Conf, r: St)
    requires InOrder(s, conf) && r.now >= s.now && r.rd.fifo == s.rd.fifo && r.wr.fifo == s.wr.fifo
    requires forall x | x in s.t :: x in r.t && r.t[x].expires == s.t[x].expires
    ensures InOrder(r, conf)
  {
    FrameInOrder(s.t, r.t, s.rd, s.now + conf.readExpire, r.rd, r.now + conf.readExpire);
    FrameInOrder(s.t, r.t, s.wr, s.now + conf.writeExpire, r.wr, r.now + conf.writeExpire);
    hide SideInOrder;
  }

  lemma FrontMergeInOrder(s: St, conf: Conf, x: nat, n: nat)
    requires Linked(s) && Queued(s, x) && n <= s.t[x].sector && InOrder(s, conf)
    ensures InOrder(FrontMerge(s, x, n), conf)
  {
    hide AddRb, SideBut, SideOk, SideInOrder, LinkedBut, Without;
    var d := s.t[x].sync;
    var t := s.t[x := s.t[x].(sector := s.t[x].sector - n, nr := s.t[x].nr + n)];
    var s1 := PutDir(s.(t := t), d, Dir(s, d).(tree := Without(Dir(s, d).tree, x)));
    LeavesTree(s, x, n);
    TableInOrder(s, conf, s1);
    AddRbInOrder(s1, conf, x);
  }

  lemma MergedInOrder(t: Table, side: Side, limit: int, x: nat, y: nat, side': Side)
    requires SideInOrder(t, side, limit) && x in side.fifo && y in side.fifo && x != y && Distinct(side.fifo)
    requires side'.fifo == Without(MergedFifo(t, side.fifo, x, y), y)
    ensures SideInOrder(MergedTable(t, x, y), side', limit)
  {
    MergedExpiring(t, side.fifo, x, y);
    MoveAfterNames(side.fifo, x, y);
    WithoutExpiring(MergedTable(t, x, y), MergedFifo(t, side.fifo, x, y), y);
    hide Expiring, MoveAfter;
  }

  lemma MergeInOrder(s: St, conf: Conf, x: nat, y: nat)
    requires Linked(s) && Enabled(s, MergeStep(x, y)) && InOrder(s, conf)
    ensures InOrder(MergeRequests(s, x, y), conf)
  {
    hide SideInOrder, MergedFifo, MergedTable, Without, Sorted;
    var d, r := s.t[x].sync, MergeRequests(s, x, y);
    QueuedKnown(s, d, x);
    QueuedKnown(s, d, y);
    MergedInOrder(s.t, Dir(s, d), s.now + conf.Expire(d), x, y, Dir(r, d));
    OtherUnmerged(s, x, y);
    FrameInOrder(s.t, r.t, Dir(s, !d), s.now + conf.Expire(!d), Dir(r, !d), s.now + conf.Expire(!d));
    hide SideOk;
  }

  lemma OtherUnmerged(s: St, x: nat, y: nat)
    requires Linked(s) && Enabled(s, MergeStep(x, y))
    ensures var t := MergedTable(s.t, x, y);
            forall z | z in Dir(s, !s.t[x].sync).fifo :: z in s.t && z in t && t[z] == s.t[z]
  {
  }

  lemma StepInOrder(s: St, conf: Conf, step: Step)
    requires Linked(s) && Enabled(s, step) && InOrder(s, conf)
    ensures InOrder(Apply(s, conf, step), conf)
  {
    hide SideOk, Add, Dispatch, FrontMerge, MergeRequests, SideInOrder;
    match step
    case AddStep(x, rq) => AddInOrder(s, conf, x, rq);
    case DispatchStep => DispatchInOrder(s, conf);
    case BackMergeStep(x, n) => TableInOrder(s, conf, BackMerge(s, x, n));
    case FrontMergeStep(x, n) => FrontMergeInOrder(s, conf, x, n);
    case MergeStep(x, y) => MergeInOrder(s, conf, x, y);
    case TickStep(to) => TableInOrder(s, conf, s.(now := to));
  }

  lemma {:induction false} RunInOrder(s: St, conf: Conf, steps: seq<Step>, r: St)
    requires Linked(s) && InOrder(s, conf) && Runs(s, conf, steps, r)
    ensures InOrder(r, conf)
    decreases |steps|
  {
    if steps != [] {
      hide Linked, Apply, InOrder;
      StepLinked(s, conf, steps[0]);
      StepInOrder(s, conf, steps[0]);
      RunInOrder(Apply(s, conf, steps[0]), conf, steps[1..], r);
    }
  }

  /** In every state a scheduler can reach both FIFOs are sorted by expiry. */
  lemma FifosExpireInOrder(init: St, conf: Conf, steps: seq<Step>, s: St)
    requires Fresh(init) && Runs(init, conf, steps, s)
    ensures Expiring(s.t, s.rd.fifo) && Expiring(s.t, s.wr.fifo)
  {
    RunInOrder(init, conf, steps, s);
    hide Linked;
  }

  // ------------------------------------------------------------ which request it is

  /** The call goes on with the running batch. */
  predicate Continues(s: St, conf: Conf) {
    (s.wr.next.Some? || s.rd.next.Some?) && s.batching < conf.fifoBatch
  }

  lemma {:induction false} NextIsSuccessor(t: Table, l: seq<nat>, x: nat)
    requires Sorted(t, l) && x in l
    ensures match Next(l, x)
            case None => forall z | z in l :: t[z].sector <= t[x].sector
            case Some(y) =>
              && y in l && t[x].sector < t[y].sector
              && forall z | z in l && t[x].sector < t[z].sector :: t[y].sector <= t[z].sector
  {
    var k := Index(l, x);
    assert l[k] == x;
    forall z | z in l ensures l[Index(l, z)] == z {}
  }

  /** A batch goes up in sector order: what is cached next is the nearest request above the one dispatched. */
  lemma BatchGoesUp(s: St, x: nat)
    requires Linked(s) && Queued(s, x)
    ensures var d := s.t[x].sync;
            match Dir(Move(s, x), d).next
            case None => forall z | z in Dir(s, d).tree :: s.t[z].sector <= s.t[x].sector
            case Some(y) =>
              && y in Dir(s, d).tree && s.t[x].sector < s.t[y].sector
              && forall z | z in Dir(s, d).tree && s.t[x].sector < s.t[z].sector :: s.t[y].sector <= s.t[z].sector
  {
    hide SideOk, Move;
    var d := s.t[x].sync;
    SideOf(s, d);
    SortedDistinct(s.t, Dir(s, d).tree);
    MoveFields(s, x);
    NextIsSuccessor(s.t, Dir(s, d).tree, x);
    TreeKnown(s, d);
  }

  /** If the request that is cached next is merged away, the batch goes on with the nearest one above it. */
  lemma MergedGoesUp(s: St, x: nat, y: nat)
    requires Linked(s) && Queued(s, x) && Queued(s, y) && x != y && s.t[x].sync == s.t[y].sync
    ensures var d, r := s.t[x].sync, MergeRequests(s, x, y);
            if Dir(s, d).next != Some(y) then Dir(r, d).next == Dir(s, d).next
            else match Dir(r, d).next
                 case None => forall z | z in Dir(s, d).tree :: z in s.t && s.t[z].sector <= s.t[y].sector
                 case Some(n) =>
                   && n in Dir(s, d).tree && n in s.t && s.t[y].sector < s.t[n].sector
                   && forall z | z in Dir(s, d).tree && z in s.t && s.t[y].sector < s.t[z].sector :: s.t[n].sector <= s.t[z].sector
  {
    hide SideOk, MergedFifo, Without;
    var d := s.t[x].sync;
    SideOf(s, d);
    TreeKnown(s, d);
    QueuedKnown(s, d, x);
    QueuedKnown(s, d, y);
    NextIsSuccessor(s.t, Dir(s, d).tree, y);
  }

  lemma OldestExpiresFirst(t: Table, l: seq<nat>)
    requires Expiring(t, l) && l != []
    ensures forall z | z in l :: z in t && t[l[0]].expires <= t[z].expires
  {
    forall z | z in l ensures z in t && t[l[0]].expires <= t[z].expires {
      var k := Index(l, z);
      assert l[k] == z;
    }
  }

  /** If any request of its direction has expired when a batch starts, the one that expires first is served. */
  lemma ExpiredIsServedFirst(s: St, conf: Conf) returns (x: nat)
    requires Linked(s) && InOrder(s, conf) && !Continues(s, conf) && Dispatch(s, conf).1
    ensures Queued(s, x) && Dispatch(s, conf).0.out == s.out + [x]
    ensures var fifo := Dir(s, s.t[x].sync).fifo;
            && x in fifo
            && ((exists y :: y in fifo && s.now > s.t[y].expires) ==> forall z | z in fifo :: s.t[x].expires <= s.t[z].expires)
  {
    hide SideOk, Go;
    var anyReads, anyWrites := s.rd.fifo != [], s.wr.fifo != [];
    var d := anyReads && !(anyWrites && s.starved >= conf.writesStarved);
    var s1 := if d then s.(starved := if anyWrites then s.starved + 1 else s.starved) else s.(starved := 0);
    x := Pick(s1, d);
    GoLinked(s1.(batching := 0), x);
    QueuedKnown(s, d, x);
    OldestExpiresFirst(s.t, Dir(s, d).fifo);
    hide Expiring;
  }

  /** The direction a new batch takes: reads, unless there are none or writes have waited often enough. */
  ghost predicate ReadsNow(s: St, conf: Conf) {
    s.rd.fifo != [] && (s.wr.fifo == [] || s.starved < conf.writesStarved)
  }

  /** What is left by a call that serves x: the batch counter, the count of read batches writes have waited for, and the head. */
  ghost predicate Serves(s: St, x: nat, batching: nat, starved: nat, r: St) {
    && x in s.t && r.out == s.out + [x] && r.last == s.t[x].sector + s.t[x].nr
    && r.batching == batching && r.starved == starved && Dir(r, !s.t[x].sync).next.None?
  }

  lemma GoServes(s: St, x: nat)
    requires Linked(s) && Queued(s, x)
    ensures Serves(s, x, s.batching + 1, s.starved, Go(s, x))
  {
    hide SideOk, Removed;
  }

  lemma BatchServes(s: St, d: bool)
    requires Linked(s) && Dir(s, d).fifo != []
    ensures var side := Dir(s, d);
            var oldest := s.now > s.t[side.fifo[0]].expires || side.next.None?;
            var x := if oldest then side.fifo[0] else side.next.value;
            x in s.t && s.t[x].sync == d && Serves(s, x, 1, s.starved, Batch(s, d))
  {
    hide SideOk, Go;
    assert Dir(s, d).fifo[0] in Dir(s, d).tree by {
      FifoHead(s, d);
    }
    GoServes(s.(batching := 0), Pick(s, d));
  }

  lemma FifoHead(s: St, d: bool)
    requires Linked(s) && Dir(s, d).fifo != []
    ensures Dir(s, d).fifo[0] in Dir(s, d).tree
  {
    assert Dir(s, d).fifo[0] in Dir(s, d).fifo;
  }

  /**
   Which request each call serves.  A batch within fifo_batch goes on with next_rq.  A new one is of reads if there
   are any and writes have not waited for writes_starved batches, else of writes; it begins with the
   oldest request if that has expired or the direction has no next_rq, and with next_rq if not.
   */
  lemma DispatchServes(s: St, conf: Conf)
    requires Linked(s)
    ensures var (r, done) := Dispatch(s, conf);
            && (done <==> s.rd.fifo != [] || s.wr.fifo != [])
            && (s.wr.next.Some? && s.batching < conf.fifoBatch ==> Serves(s, s.wr.next.value, s.batching + 1, s.starved, r))
            && (s.rd.next.Some? && s.batching < conf.fifoBatch ==> Serves(s, s.rd.next.value, s.batching + 1, s.starved, r))
            && (done && !((s.wr.next.Some? || s.rd.next.Some?) && s.batching < conf.fifoBatch) ==>
                  var d := ReadsNow(s, conf);
                  var side := Dir(s, d);
                  && side.fifo != [] && side.fifo[0] in s.t
                  && Serves(s, if s.now > s.t[side.fifo[0]].expires || side.next.None? then side.fifo[0] else side.next.value,
                            1, if !d then 0 else if s.wr.fifo == [] then s.starved else s.starved + 1, r))
  {
    hide SideOk, Go, Batch, Serves;
    FifoFull(s, true);
    FifoFull(s, false);
    if s.wr.next.Some? {
      NextQueued(s, false);
      GoServes(s, s.wr.next.value);
    }
    if s.rd.next.Some? {
      NextQueued(s, true);
      GoServes(s, s.rd.next.value);
    }
    NewBatchServes(s, conf);
  }

  lemma NewBatchServes(s: St, conf: Conf)
    requires Linked(s)
    ensures var (r, done) := Dispatch(s, conf);
            done && !((s.wr.next.Some? || s.rd.next.Some?) && s.batching < conf.fifoBatch) ==>
              var d := ReadsNow(s, conf);
              var side := Dir(s, d);
              && side.fifo != [] && side.fifo[0] in s.t
              && Serves(s, if s.now > s.t[side.fifo[0]].expires || side.next.None? then side.fifo[0] else side.next.value,
                        1, if !d then 0 else if s.wr.fifo == [] then s.starved else s.starved + 1, r)
  {
    hide SideOk, Go, Batch;
    var d := ReadsNow(s, conf);
    if Dir(s, d).fifo != [] {
      FifoHead(s, d);
      QueuedKnown(s, d, Dir(s, d).fifo[0]);
      BatchServes(s.(starved := if !d then 0 else if s.wr.fifo == [] then s.starved else s.starved + 1), d);
    }
  }
}
