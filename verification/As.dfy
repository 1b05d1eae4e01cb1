/**
 The anticipatory I/O scheduler of block/as-iosched.c as a value: its two directions (true for
 BLK_RW_SYNC), the batch and anticipation state machines, and the requests it has handed to the
 dispatch queue.  Time, the per-process statistics and the driver act through parameters.
 */
module As {
  import opened SortList
  import opened AsCache

  /** One direction: sort_list, fifo_list, next_rq and last_sector. */
  datatype Side = Side(tree: seq<nat>, fifo: seq<nat>, next: Option<nat>, last: nat)

  datatype Antic = Off | WaitReq | WaitNext | Finished

  /** The batch and anticipation fields of struct as_data.  bug (history): some BUG_ON or WARN_ON has fired. */
  datatype Ctl = Ctl(
    changed: bool, newBatch: bool, dir: bool,
    writeBatchCount: nat, currentWriteCount: nat, idled: bool,
    antic: Antic, ioc: nat, iocFinished: bool, bug: bool)

  /**
   struct as_data and the states of its requests.  out: those dispatched and not completed;
   active: those of them in state AS_RQ_REMOVED.
   */
  datatype St = St(
    t: Table, sync: Side, async: Side, c: Ctl, nrDispatched: nat, out: set<nat>, active: set<nat>)

  function Dir(s: St, d: bool): Side {
    if d then s.sync else s.async
  }

  function PutDir(s: St, d: bool, side: Side): St {
    if d then s.(sync := side) else s.(async := side)
  }

  function Flag(c: Ctl, bad: bool): Ctl {
    c.(bug := c.bug || bad)
  }

  // ------------------------------------------------------ the indexes hang together

  ghost predicate SideOk(t: Table, d: bool, side: Side) {
    && Sorted(t, side.tree) && Distinct(side.fifo)
    && (forall x :: x in side.tree <==> x in side.fifo)
    && (forall x | x in side.tree :: x in t && t[x].sync == d)
    && (side.next.Some? ==> side.next.value in side.tree)
  }

  /** There is a next_rq if there is a request. */
  predicate SideFound(side: Side) {
    side.next.None? ==> side.tree == []
  }

  predicate Found(s: St) {
    SideFound(s.sync) && SideFound(s.async)
  }

  /** Tree and FIFO hold the same requests, next_rq, if any, is one of them, and none of them is outstanding. */
  ghost predicate Linked(s: St) {
    SideOk(s.t, true, s.sync) && SideOk(s.t, false, s.async) && Outstanding(s)
  }

  ghost predicate Outstanding(s: St) {
    && (forall x | x in s.out :: x in s.t && x !in s.sync.tree && x !in s.async.tree)
    && s.active <= s.out
    && s.nrDispatched == |s.out|
  }

  predicate Queued(s: St, x: nat) {
    x in s.t && x in Dir(s, s.t[x].sync).tree
  }

  lemma QueuedKnown(s: St, d: bool, x: nat)
    requires Linked(s) && x in Dir(s, d).tree
    ensures Queued(s, x) && s.t[x].sync == d && x !in s.out && x !in Dir(s, !d).tree && x in Dir(s, d).fifo
  {
  }

  // ------------------------------------------------------------------ anticipation

  predicate Waiting(a: Antic) {
    a == WaitReq || a == WaitNext
  }

  /** as_antic_waitnext. */
  function WaitForNext(c: Ctl): Ctl {
    Flag(c, c.antic != Off && c.antic != WaitReq).(antic := WaitNext)
  }

  /** as_antic_waitreq. */
  function WaitForReq(c: Ctl): Ctl {
    var c1 := Flag(c, c.antic == Finished);
    if c1.antic == Off then
      if c1.ioc == 0 || c1.iocFinished then WaitForNext(c1) else c1.(antic := WaitReq)
    else c1
  }

  /** as_antic_stop. */
  function AnticStop(c: Ctl): Ctl {
    if Waiting(c.antic) then c.(antic := Finished) else c
  }

  /** nr_queued of the context's as_io_context is not zero. */
  predicate HasQueued(s: St, ioc: nat) {
    exists y :: y in s.t && (y in s.sync.tree || y in s.async.tree) && s.t[y].ioc == ioc
  }

  /** Its nr_dispatched is not zero: it has a request on the dispatch queue. */
  predicate HasDispatched(s: St, ioc: nat) {
    exists y :: y in s.t && y in s.out && y !in s.active && s.t[y].ioc == ioc
  }

  /** as_can_break_anticipation: the process waited for has this request, or others, or the clock and the statistics say so. */
  predicate CanBreak(s: St, rq: Option<nat>, stats: bool) {
    || (rq.Some? && rq.value in s.t && s.c.ioc == s.t[rq.value].ioc)
    || HasQueued(s, s.c.ioc) || HasDispatched(s, s.c.ioc) || stats
  }

  /** as_antic_timeout. */
  function Timeout(c: Ctl): Ctl {
    if Waiting(c.antic) then Flag(c, c.ioc == 0).(antic := Finished) else c
  }

  // ------------------------------------------------------------ queueing and moving

  /** as_remove_queued_request on one direction. */
  function SideRemove(t: Table, side: Side, x: nat): Side
    requires Known(t, side.tree) && x in side.tree
  {
    side.(next := if side.next == Some(x) then FindNext(t, side.last, side.tree, x) else side.next,
          fifo := Without(side.fifo, x), tree := Without(side.tree, x))
  }

  /** Both indexes lose x, and its neighbours offer another request exactly if there is one. */
  lemma TakenOut(t: Table, d: bool, side: Side, x: nat, last: nat)
    requires SideOk(t, d, side) && x in side.tree
    ensures var tree, fifo := Without(side.tree, x), Without(side.fifo, x);
            && Sorted(t, tree) && Distinct(fifo)
            && (forall y :: y in tree <==> y in fifo)
            && (forall y | y in tree :: y in t && t[y].sync == d)
    ensures var next := FindNext(t, last, side.tree, x);
            && (next.None? <==> Without(side.tree, x) == [])
            && (next.Some? ==> next.value in Without(side.tree, x))
  {
    hide FindNext;
    WithoutSorted(t, side.tree, x);
    WithoutDistinct(side.fifo, x);
    SortedDistinct(t, side.tree);
    var k := Index(side.tree, x);
    assert side.tree[k] == x;
    if |side.tree| == 1 {
      LonelyNode(t, last, side.tree);
    } else {
      FindNextFinds(t, last, side.tree, k);
      assert side.tree[if k == 0 then 1 else 0] in Without(side.tree, x);
    }
  }

  lemma SideRemoveOk(t: Table, d: bool, side: Side, x: nat)
    requires SideOk(t, d, side) && x in side.tree
    ensures SideOk(t, d, SideRemove(t, side, x)) && (SideFound(side) ==> SideFound(SideRemove(t, side, x)))
  {
    TakenOut(t, d, side, x, side.last);
    assert side.next.Some? && side.next != Some(x) ==> side.next.value in Without(side.tree, x);
    hide FindNext, Without, Sorted, Distinct;
  }

  /** as_move_to_dispatch on one direction: the head moves to the end of x. */
  function SideMove(t: Table, side: Side, x: nat): Side
    requires Known(t, side.tree) && x in side.tree && x in t
  {
    var last := t[x].End();
    SideRemove(t, side.(last := last, next := FindNext(t, last, side.tree, x)), x)
  }

  lemma SideMoveOk(t: Table, d: bool, side: Side, x: nat)
    requires SideOk(t, d, side) && x in side.tree
    ensures var last := t[x].End();
            SideMove(t, side, x) ==
            Side(Without(side.tree, x), Without(side.fifo, x), FindNext(t, last, side.tree, x), last)
    ensures SideOk(t, d, SideMove(t, side, x)) && SideFound(SideMove(t, side, x))
  {
    TakenOut(t, d, side, x, t[x].End());
    assert x !in Without(side.tree, x);
    hide FindNext, Without, Sorted, Distinct;
  }

  function MoveCtl(c: Ctl, rq: Rq): Ctl {
    c.(antic := Off, iocFinished := false,
       ioc := if !rq.sync then 0 else if rq.ioc != 0 then rq.ioc else c.ioc,
       currentWriteCount := if !rq.sync && c.currentWriteCount != 0 then c.currentWriteCount - 1 else c.currentWriteCount)
  }

  /** as_move_to_dispatch. */
  function Move(s: St, x: nat): St
    requires Linked(s) && Queued(s, x)
  {
    var rq := s.t[x];
    var s1 := s.(
      c := MoveCtl(s.c, rq), nrDispatched := s.nrDispatched + 1, out := s.out + {x}, active := s.active - {x});
    PutDir(s1, rq.sync, SideMove(s.t, Dir(s, rq.sync), x))
  }

  lemma MoveFields(s: St, x: nat)
    requires Linked(s) && Queued(s, x)
    ensures var d, r := s.t[x].sync, Move(s, x);
            && Dir(r, d) == SideMove(s.t, Dir(s, d), x) && Dir(r, !d) == Dir(s, !d) && r.t == s.t
            && r.out == s.out + {x} && r.active == s.active - {x} && r.nrDispatched == s.nrDispatched + 1
  {
    hide SideMove, SideOk;
  }

  lemma MoveLinked(s: St, x: nat)
    requires Linked(s) && Queued(s, x)
    ensures Linked(Move(s, x))
  {
    hide SideOk, SideMove, Without, FindNext, Move;
    var d, r := s.t[x].sync, Move(s, x);
    MoveFields(s, x);
    SideMoveOk(s.t, d, Dir(s, d), x);
    QueuedKnown(s, d, x);
    forall y | y in r.out ensures y in r.t && y !in Dir(r, d).tree && y !in Dir(r, !d).tree {}
  }

  /** as_add_rq_rb, list_add_tail and the cache update of as_update_rq on one direction. */
  function SideAdd(t: Table, side: Side, x: nat): Side
    requires Known(t, side.tree) && x in t && (side.next.Some? ==> side.next.value in t)
  {
    side.(tree := Insert(t, side.tree, x), fifo := side.fifo + [x],
          next := Choose(t, side.last, Some(x), side.next))
  }

  lemma SideAddOk(t: Table, d: bool, side: Side, x: nat)
    requires SideOk(t, d, side) && x in t && x !in side.tree && t[x].sync == d
    requires Find(t, side.tree, t[x].sector).None?
    ensures SideOk(t, d, SideAdd(t, side, x)) && SideFound(SideAdd(t, side, x))
  {
    hide Sorted;
    InsertSorted(t, side.tree, x);
  }

  /** as_add_rq_rb's loop: a request already queued at the sector goes straight to the dispatch queue. */
  function MoveAlias(s: St, d: bool, sector: nat): St
    requires Linked(s)
  {
    match Find(s.t, Dir(s, d).tree, sector)
    case None => s
    case Some(alias) => Move(s, alias).(c := AnticStop(Move(s, alias).c))
  }

  lemma TreeSorted(s: St, d: bool)
    requires Linked(s)
    ensures SideOk(s.t, d, Dir(s, d)) && Sorted(s.t, Dir(s, d).tree)
  {
  }

  /** The request x is in no queue. */
  predicate Unknown(s: St, x: nat) {
    x !in s.sync.tree && x !in s.async.tree && x !in s.out
  }

  lemma MoveAliasLinked(s: St, d: bool, sector: nat)
    requires Linked(s)
    ensures Linked(MoveAlias(s, d, sector)) && MoveAlias(s, d, sector).t == s.t
    ensures var r := MoveAlias(s, d, sector); Find(r.t, Dir(r, d).tree, sector).None?
  {
    hide SideOk, SideMove, Without, FindNext, Move;
    TreeSorted(s, d);
    match Find(s.t, Dir(s, d).tree, sector) {
      case None =>
      case Some(a) =>
        QueuedKnown(s, d, a);
        MoveLinked(s, a);
        MoveFields(s, a);
        SideMoveOk(s.t, d, Dir(s, d), a);
        OneAtSector(s.t, Dir(s, d).tree, a);
    }
  }

  lemma MoveAliasUnknown(s: St, d: bool, sector: nat, x: nat)
    requires Linked(s) && Unknown(s, x)
    ensures Unknown(MoveAlias(s, d, sector), x)
  {
    hide SideOk, SideMove, FindNext, Move;
    TreeSorted(s, d);
    match Find(s.t, Dir(s, d).tree, sector) {
      case None =>
      case Some(a) =>
        QueuedKnown(s, d, a);
        MoveFields(s, a);
        SideMoveOk(s.t, d, Dir(s, d), a);
    }
  }

  /** A fresh request enters the table. */
  lemma FreshLinked(s: St, x: nat, rq: Rq)
    requires Linked(s) && x !in s.t
    ensures Linked(s.(t := s.t[x := rq])) && Unknown(s, x)
  {
    var t' := s.t[x := rq];
    SortedFrame(s.t, t', s.sync.tree);
    SortedFrame(s.t, t', s.async.tree);
  }

  /** as_add_request up to as_update_rq's look at the anticipation. */
  function Enqueue(s: St, x: nat, rq: Rq): St
    requires Linked(s) && x !in s.t
  {
    FreshLinked(s, x, rq);
    var s0 := s.(t := s.t[x := rq]);
    var s1 := MoveAlias(s0, rq.sync, rq.sector);
    MoveAliasLinked(s0, rq.sync, rq.sector);
    TreeSorted(s1, rq.sync);
    PutDir(s1, rq.sync, SideAdd(s1.t, Dir(s1, rq.sync), x))
  }

  /** as_add_request. */
  function Add(s: St, x: nat, rq: Rq, stats: bool): St
    requires Linked(s) && x !in s.t
  {
    var s1 := Enqueue(s, x, rq);
    s1.(c := NewcomerCtl(s1, x, stats))
  }

  /** The second half of as_update_rq. */
  function NewcomerCtl(s: St, x: nat, stats: bool): Ctl {
    if Waiting(s.c.antic) then
      var c := Flag(s.c, s.c.ioc == 0);
      if CanBreak(s, Some(x), stats) then AnticStop(c) else c
    else s.c
  }

  lemma EnqueueLinked(s: St, x: nat, rq: Rq)
    requires Linked(s) && x !in s.t
    ensures Linked(Enqueue(s, x, rq))
  {
    hide SideOk, MoveAlias, SideAdd, Find, Choose;
    var d, s0 := rq.sync, s.(t := s.t[x := rq]);
    FreshLinked(s, x, rq);
    MoveAliasLinked(s0, d, rq.sector);
    MoveAliasUnknown(s0, d, rq.sector, x);
    var s1 := MoveAlias(s0, d, rq.sector);
    TreeSorted(s1, d);
    SideAddOk(s1.t, d, Dir(s1, d), x);
    SideAddNames(s1.t, Dir(s1, d), x);
  }

  lemma SideAddNames(t: Table, side: Side, x: nat)
    requires Known(t, side.tree) && x in t && (side.next.Some? ==> side.next.value in t)
    ensures forall y :: y in SideAdd(t, side, x).tree <==> y in side.tree || y == x
  {
  }

  // ------------------------------------------------------------------------ merging

  /** A bio of n sectors goes on the end of queued request x. */
  function BackMerge(s: St, x: nat, n: nat): St
    requires Linked(s) && Queued(s, x)
  {
    s.(t := s.t[x := s.t[x].(nr := s.t[x].nr + n)])
  }

  /** The other request of its direction that stands where x comes to stand after a front merge of n sectors. */
  function FrontAlias(s: St, x: nat, n: nat): Option<nat>
    requires Linked(s) && Queued(s, x) && n <= s.t[x].sector
  {
    var d, t := s.t[x].sync, FrontMerged(s.t, x, n);
    KnownMore(s, d, t);
    WithoutKnown(t, Dir(s, d).tree, x);
    Find(t, Without(Dir(s, d).tree, x), t[x].sector)
  }

  /**
   A bio of n sectors goes in front of x, which as_merged_request takes out of the tree and puts back.
   A request that stands there is moved to the dispatch queue meanwhile, and next_rq is looked for
   in the tree without x.
   */
  function FrontMerge(s: St, x: nat, n: nat): St
    requires Linked(s) && Queued(s, x) && n <= s.t[x].sector
  {
    var d, t := s.t[x].sync, FrontMerged(s.t, x, n);
    KnownMore(s, d, t);
    WithoutKnown(t, Dir(s, d).tree, x);
    var side := Dir(s, d).(tree := Without(Dir(s, d).tree, x));
    match FrontAlias(s, x, n)
    case None => PutDir(s.(t := t), d, side.(tree := Insert(t, side.tree, x)))
    case Some(a) =>
      var moved := SideMove(t, side, a);
      WithoutKnown(t, side.tree, a);
      PutDir(s.(t := t, c := AnticStop(MoveCtl(s.c, t[a])), nrDispatched := s.nrDispatched + 1,
                out := s.out + {a}, active := s.active - {a}),
             d, moved.(tree := Insert(t, moved.tree, x)))
  }

  lemma KnownMore(s: St, d: bool, t: Table)
    requires Linked(s) && forall y | y in s.t :: y in t
    ensures Known(t, Dir(s, d).tree)
  {
  }

  lemma WithoutKnown(t: Table, l: seq<nat>, x: nat)
    requires Known(t, l)
    ensures Known(t, Without(l, x))
  {
    var r := Without(l, x);
    forall i | 0 <= i < |r| ensures r[i] in t {
      assert r[i] in r;
      var j := Index(l, r[i]);
      assert l[j] in t;
    }
  }

  /** as_merged_requests. */
  function MergeRequests(s: St, x: nat, y: nat): St
    requires Linked(s) && Queued(s, x) && Queued(s, y) && x != y && s.t[x].sync == s.t[y].sync
  {
    var d, t := s.t[x].sync, MergedTable(s.t, x, y);
    var side := Dir(s, d).(fifo := MergedFifo(s.t, Dir(s, d).fifo, x, y));
    PutDir(s.(t := t), d, SideRemove(t, side, y))
  }

  /** Requests may change their fields as long as directions and the order of the trees stay. */
  lemma TableChange(s: St, t': Table)
    requires Linked(s) && Sorted(t', s.sync.tree) && Sorted(t', s.async.tree)
    requires forall x | x in s.t :: x in t' && t'[x].sync == s.t[x].sync
    ensures Linked(s.(t := t'))
  {
    hide Sorted;
  }

  lemma BackMergeLinked(s: St, x: nat, n: nat)
    requires Linked(s) && Queued(s, x)
    ensures Linked(BackMerge(s, x, n))
  {
    var t' := BackMerge(s, x, n).t;
    SortedFrame(s.t, t', s.sync.tree);
    SortedFrame(s.t, t', s.async.tree);
    hide Sorted, SideOk;
    TableChange(s, t');
  }

  /** The repositioned tree is in order again. */
  lemma PutBack(t: Table, t': Table, l: seq<nat>, x: nat)
    requires Sorted(t, l) && x in l && x in t' && forall y | y in l && y != x :: y in t' && t'[y].sector == t[y].sector
    requires forall y | y in l && y != x :: t'[y].sector != t'[x].sector
    ensures Known(t', Without(l, x)) && Sorted(t', Insert(t', Without(l, x), x))
  {
    hide Sorted;
    WithoutSorted(t, l, x);
    var r := Without(l, x);
    SortedFrame(t, t', r);
    SortedKnown(t', r);
    forall i | 0 <= i < |r| ensures t'[r[i]].sector != t'[x].sector {
      assert r[i] in r;
    }
    InsertSorted(t', r, x);
  }

  lemma SortedKnown(t: Table, l: seq<nat>)
    requires Sorted(t, l)
    ensures Known(t, l)
  {
  }

  lemma Repositioned(t: Table, t': Table, d: bool, side: Side, x: nat)
    requires SideOk(t, d, side) && x in side.tree
    requires forall y | y in t :: y in t' && t'[y].sync == t[y].sync && (y != x ==> t'[y].sector == t[y].sector)
    requires forall y | y in side.tree && y != x :: t'[y].sector != t'[x].sector
    ensures Known(t', Without(side.tree, x)) && SideOk(t', d, side.(tree := Insert(t', Without(side.tree, x), x)))
    ensures forall y :: y in Insert(t', Without(side.tree, x), x) <==> y in side.tree
  {
    hide Sorted, Distinct, Insert, Without;
    PutBack(t, t', side.tree, x);
    var l := Insert(t', Without(side.tree, x), x);
    assert x in l;
    forall y ensures y in l <==> y in side.tree {}
  }

  /** x stands nowhere in the tree, a is moved out of it, and x is put back. */
  lemma AliasedOk(t: Table, t': Table, d: bool, side: Side, x: nat, a: nat)
    requires SideOk(t, d, side) && x in side.tree && a in side.tree && a != x
    requires forall y | y in t :: y in t' && t'[y].sync == t[y].sync && (y != x ==> t'[y].sector == t[y].sector)
    requires t'[a].sector == t'[x].sector
    ensures var rest := Without(side.tree, x);
            && Known(t', rest) && Known(t', Without(rest, a))
            && var r := SideMove(t', side.(tree := rest), a);
            && r == Side(Without(rest, a), Without(side.fifo, a), FindNext(t', t'[a].End(), rest, a), t'[a].End())
            && SideOk(t', d, r.(tree := Insert(t', r.tree, x)))
            && (forall y :: y in Insert(t', r.tree, x) <==> y in side.tree && y != a)
            && (r.next.None? <==> Without(rest, a) == [])
  {
    hide Sorted, Distinct, Insert, Without, FindNext, Known;
    var rest := Without(side.tree, x);
    SortedKnown(t, side.tree);
    SideRemoveOk(t, d, side, x);
    var removed := SideRemove(t, side, x);
    SideKept(t, t', d, removed);
    SideMoveOk(t', d, removed, a);
    TakenOut(t', d, removed, a, t'[a].End());
    SortedKnown(t', rest);
    SortedKnown(t', Without(rest, a));
    OneAtSector(t', rest, a);
    WithoutDistinct(side.fifo, a);
    InsertSorted(t', Without(rest, a), x);
  }

  lemma FrontAliasIs(s: St, x: nat, n: nat)
    requires Linked(s) && Queued(s, x) && n <= s.t[x].sector
    ensures var d, t := s.t[x].sync, FrontMerged(s.t, x, n);
            match FrontAlias(s, x, n)
            case Some(a) => a in Dir(s, d).tree && a != x && a in s.t && t[a] == s.t[a] && t[a].sector == t[x].sector
            case None => forall y | y in Dir(s, d).tree && y != x :: y in t && t[y].sector != t[x].sector
  {
    hide SideOk, Outstanding;
    var d, t := s.t[x].sync, FrontMerged(s.t, x, n);
    TreeDir(s, d);
    KnownMore(s, d, t);
    var rest := Without(Dir(s, d).tree, x);
    WithoutKnown(t, Dir(s, d).tree, x);
    if FrontAlias(s, x, n).None? {
      forall y | y in Dir(s, d).tree && y != x ensures y in t && t[y].sector != t[x].sector {
        assert rest[Index(rest, y)] == y;
      }
    }
  }

  /** What a front merge does to the direction of x, and that nothing else changes but for an alias moved out. */
  lemma FrontMergeLinked(s: St, x: nat, n: nat)
    requires Linked(s) && Queued(s, x) && n <= s.t[x].sector
    ensures var d, r, a := s.t[x].sync, FrontMerge(s, x, n), FrontAlias(s, x, n);
            && Linked(r) && r.t == FrontMerged(s.t, x, n) && Dir(r, !d) == Dir(s, !d)
            && (a.None? ==> r.c == s.c && r.out == s.out && Dir(r, d).next == Dir(s, d).next)
            && (a.Some? ==> r.c == AnticStop(MoveCtl(s.c, s.t[a.value])) && r.out == s.out + {a.value}
                            && (Dir(r, d).next.None? <==> Without(Without(Dir(s, d).tree, x), a.value) == []))
            && (forall y :: y in Dir(r, d).tree <==> y in Dir(s, d).tree && Some(y) != a)
  {
    hide SideOk, Insert, Without, Sorted, Known, FrontAlias, SideMove, Find;
    var d, t' := s.t[x].sync, FrontMerged(s.t, x, n);
    QueuedKnown(s, d, x);
    FrontAliasIs(s, x, n);
    TreeSorted(s, d);
    TreeSorted(s, !d);
    TreeDir(s, !d);
    SideKept(s.t, t', !d, Dir(s, !d));
    KnownMore(s, d, t');
    WithoutKnown(t', Dir(s, d).tree, x);
    match FrontAlias(s, x, n) {
      case None => Repositioned(s.t, t', d, Dir(s, d), x);
      case Some(a) =>
        AliasedOk(s.t, t', d, Dir(s, d), x, a);
        QueuedKnown(s, d, a);
        AliasOutstanding(s, FrontMerge(s, x, n), d, a);
    }
  }

  lemma AliasOutstanding(s: St, r: St, d: bool, a: nat)
    requires Linked(s) && a in Dir(s, d).tree && a in s.t && a !in s.out && a !in Dir(s, !d).tree
    requires r.out == s.out + {a} && r.active == s.active - {a} && r.nrDispatched == s.nrDispatched + 1
    requires (forall y | y in s.t :: y in r.t) && Dir(r, !d) == Dir(s, !d)
    requires forall y :: y in Dir(r, d).tree <==> y in Dir(s, d).tree && y != a
    ensures Outstanding(r)
  {
    hide SideOk;
    forall y | y in r.out ensures y in r.t && y !in Dir(r, d).tree && y !in Dir(r, !d).tree {}
  }

  lemma TreeDir(s: St, d: bool)
    requires Linked(s)
    ensures forall x | x in Dir(s, d).tree :: x in s.t && s.t[x].sync == d
  {
  }

  /** A direction none of whose requests changed sector. */
  lemma SideKept(t: Table, t': Table, d: bool, side: Side)
    requires SideOk(t, d, side)
    requires forall y | y in side.tree :: y in t' && t'[y].sector == t[y].sector && t'[y].sync == t[y].sync
    ensures SideOk(t', d, side)
  {
    SortedFrame(t, t', side.tree);
    hide Sorted, Distinct;
  }

  lemma MergedTableLinked(s: St, x: nat, y: nat)
    requires Linked(s) && Queued(s, x) && Queued(s, y) && s.t[x].sync == s.t[y].sync
    ensures Linked(s.(t := MergedTable(s.t, x, y)))
  {
    hide SideOk;
    var t' := MergedTable(s.t, x, y);
    TreeSorted(s, true);
    TreeSorted(s, false);
    SortedFrame(s.t, t', s.sync.tree);
    SortedFrame(s.t, t', s.async.tree);
    hide Sorted;
    TableChange(s, t');
  }

  lemma PutSmaller(s: St, d: bool, side: Side)
    requires Linked(s) && SideOk(s.t, d, side) && forall x | x in side.tree :: x in Dir(s, d).tree
    ensures Linked(PutDir(s, d, side))
  {
    hide SideOk;
  }

  lemma MergeRequestsLinked(s: St, x: nat, y: nat)
    requires Linked(s) && Queued(s, x) && Queued(s, y) && x != y && s.t[x].sync == s.t[y].sync
    ensures Linked(MergeRequests(s, x, y))
  {
    hide SideOk, SideRemove, MergedTable, MergedFifo, Sorted, Outstanding, Linked, Known, Distinct, Without;
    var d, t' := s.t[x].sync, MergedTable(s.t, x, y);
    MergedTableLinked(s, x, y);
    QueuedKnown(s, d, x);
    QueuedKnown(s, d, y);
    TreeSorted(s.(t := t'), d);
    MergedFifoOk(s.t, t', d, Dir(s, d), x, y);
    var side := Dir(s, d).(fifo := MergedFifo(s.t, Dir(s, d).fifo, x, y));
    SideRemoveOk(t', d, side, y);
    RemovedNames(t', side, y);
    PutSmaller(s.(t := t'), d, SideRemove(t', side, y));
  }

  lemma MergedFifoOk(t: Table, t': Table, d: bool, side: Side, x: nat, y: nat)
    requires SideOk(t', d, side) && x in side.tree && y in side.tree && x != y && x in t && y in t
    ensures SideOk(t', d, side.(fifo := MergedFifo(t, side.fifo, x, y)))
  {
    MoveAfterNames(side.fifo, x, y);
    hide Sorted, MoveAfter;
  }

  lemma RemovedNames(t: Table, side: Side, x: nat)
    requires Known(t, side.tree) && x in side.tree
    ensures forall y :: y in SideRemove(t, side, x).tree <==> y in side.tree && y != x
  {
  }

  // ------------------------------------------------------------------- dispatching

  /**
   What the clock and the statistics say during a call: the batch's time is over, the FIFO check
   is due and its head has expired (asked up to twice), anticipation is pointless, antic_expire
   is not zero.
   */
  datatype Env = Env(timeUp: bool, fifoUp: bool, fifoUpAgain: bool, stats: bool, anticipates: bool)

  /** as_fifo_expired. */
  predicate FifoExpired(s: St, d: bool, up: bool) {
    up && Dir(s, d).fifo != []
  }

  /** as_batch_expired. */
  predicate BatchExpired(c: Ctl, e: Env) {
    !c.changed && !c.newBatch && (e.timeUp || (!c.dir && c.currentWriteCount == 0))
  }

  /** as_can_anticipate. */
  predicate CanAnticipate(s: St, rq: Option<nat>, e: Env) {
    s.c.ioc != 0 && s.c.antic != Finished && !CanBreak(s, rq, e.stats)
  }

  lemma FifoQueued(s: St, d: bool)
    requires Linked(s) && Dir(s, d).fifo != []
    ensures Queued(s, Dir(s, d).fifo[0]) && s.t[Dir(s, d).fifo[0]].sync == d && Dir(s, d).tree != []
  {
    assert Dir(s, d).fifo[0] in Dir(s, d).fifo;
  }

  lemma NextQueued(s: St, d: bool)
    requires Linked(s) && Dir(s, d).next.Some?
    ensures Queued(s, Dir(s, d).next.value) && s.t[Dir(s, d).next.value].sync == d
  {
  }

  /** The last part of as_dispatch_request: a batch that changed waits for the old one to end. */
  function Finish(s: St, rq: nat): (St, bool)
    requires Linked(s) && Queued(s, rq)
  {
    if s.c.changed then
      var c := Flag(s.c, s.c.newBatch);
      if s.nrDispatched != 0 then (s.(c := c), false)
      else (Move(s.(c := c.(newBatch := c.newBatch || c.dir, changed := false)), rq), true)
    else (Move(s, rq), true)
  }

  /** From the label dispatch_request on. */
  function Issue(s: St, rq: nat, e: Env): (St, bool)
    requires Linked(s) && Queued(s, rq)
  {
    if FifoExpired(s, s.c.dir, e.fifoUpAgain) then
      FifoQueued(s, s.c.dir);
      Finish(s, Dir(s, s.c.dir).fifo[0])
    else Finish(s, rq)
  }

  function StartReads(c: Ctl): Ctl {
    (if c.dir then c else Flag(c, c.newBatch).(changed := true)).(dir := true)
  }

  function StartWrites(c: Ctl): Ctl {
    (if c.dir then c.(changed := true, newBatch := false) else c).(
      dir := false, currentWriteCount := c.writeBatchCount, idled := false)
  }

  /** No batch is running: select a direction and take its oldest request. */
  function SelectBatch(s: St, e: Env): (St, bool)
    requires Linked(s)
  {
    var anyReads, anyWrites := s.sync.fifo != [], s.async.fifo != [];
    if anyReads && !(anyWrites && s.c.dir) then
      FifoQueued(s, true);
      Issue(s.(c := StartReads(Flag(s.c, s.sync.tree == []))), s.sync.fifo[0], e)
    else if anyWrites then
      FifoQueued(s, false);
      Issue(s.(c := StartWrites(Flag(s.c, s.async.tree == []))), s.async.fifo[0], e)
    else (s.(c := Flag(s.c, true)), false)
  }

  /** A write batch without competition cannot be timed. */
  function Idle(c: Ctl, anyReads: bool, anyWrites: bool): Ctl {
    if !c.dir && !anyReads && (c.currentWriteCount == 0 || !anyWrites) then c.(idled := true) else c
  }

  /** as_dispatch_request without force. */
  function Dispatch(s: St, e: Env): (St, bool)
    requires Linked(s)
  {
    var anyReads, anyWrites := s.sync.fifo != [], s.async.fifo != [];
    var c := Idle(s.c, anyReads, anyWrites);
    var s0 := s.(c := c);
    if (!anyReads && !anyWrites) || Waiting(c.antic) || c.changed then (s0, false)
    else if anyReads && anyWrites && BatchExpired(c, e) then SelectBatch(s0, e)
    else
      var rq := Dir(s0, c.dir).next;
      if c.dir && e.anticipates && FifoExpired(s0, true, e.fifoUp) then
        FifoQueued(s0, true);
        Finish(s0, s0.sync.fifo[0])
      else if c.dir && e.anticipates && CanAnticipate(s0, rq, e) then (s0.(c := WaitForReq(c)), false)
      else if rq.Some? then
        NextQueued(s0, c.dir);
        Issue(s0, rq.value, e)
      else SelectBatch(s0, e)
  }

  /** update_write_batch, given how long the batch took. */
  function WriteBatch(count: nat, current: nat, idled: bool, batch: nat, time: int): (r: nat)
    ensures r >= 1
  {
    var t := if time < 0 then 0 else time;
    var n: int :=
      if t > batch && !idled then if t > batch * 3 then count / 2 else count - 1
      else if t < batch && current == 0 then if batch > t * 3 then count * 2 else count + 1
      else count;
    if n < 1 then 1 else n
  }

  /** The batch part of as_completed_request: the last request of the old batch starts the new one. */
  function BatchCompleted(c: Ctl, nr: nat, rq: Rq, batch: nat, time: int): Ctl {
    var c1 := if c.changed && nr == 1 then c.(changed := false, newBatch := c.newBatch || c.dir) else c;
    var c2 := Flag(c1, nr == 0);
    if c2.newBatch && c2.dir == rq.sync then
      c2.(newBatch := false,
          writeBatchCount := WriteBatch(c2.writeBatchCount, c2.currentWriteCount, c2.idled, batch, time))
    else c2
  }

  /** Its anticipation part: the request waited for is done, wait for the next one. */
  function AnticCompleted(c: Ctl, rq: Rq): Ctl {
    if c.ioc == rq.ioc && c.ioc != 0 then
      var c1 := c.(iocFinished := true);
      if c1.antic == WaitReq then WaitForNext(c1) else c1
    else c
  }

  /** as_completed_request. */
  function Complete(s: St, x: nat, batch: nat, time: int): St
    requires Linked(s) && x in s.active
  {
    s.(c := AnticCompleted(BatchCompleted(s.c, s.nrDispatched, s.t[x], batch, time), s.t[x]),
       nrDispatched := if s.nrDispatched == 0 then 0 else s.nrDispatched - 1,
       out := s.out - {x}, active := s.active - {x})
  }

  // ----------------------------------------------------------------- forced dispatch

  lemma CtlLinked(s: St, c: Ctl)
    requires Linked(s)
    ensures Linked(s.(c := c))
  {
    hide SideOk;
  }

  lemma MoveShrinks(s: St, d: bool)
    requires Linked(s) && Dir(s, d).next.Some?
    ensures var x := Dir(s, d).next.value;
            && Queued(s, x) && Linked(Move(s, x)) && |Dir(Move(s, x), d).tree| == |Dir(s, d).tree| - 1
            && Dir(Move(s, x), d).tree == Without(Dir(s, d).tree, x) && s.t[x].sync == d
            && Dir(Move(s, x), !d) == Dir(s, !d) && SideFound(Dir(Move(s, x), d))
  {
    hide SideOk, SideMove, Move, FindNext, Without;
    var x := Dir(s, d).next.value;
    NextQueued(s, d);
    MoveLinked(s, x);
    MoveFields(s, x);
    TreeSorted(s, d);
    SideMoveOk(s.t, d, Dir(s, d), x);
    SortedDistinct(s.t, Dir(s, d).tree);
    WithoutLength(Dir(s, d).tree, x);
  }

  /** while (ad->next_rq[d]) as_move_to_dispatch(ad, ad->next_rq[d]). */
  ghost function DrainSide(s: St, d: bool): St
    requires Linked(s)
    decreases |Dir(s, d).tree|
  {
    if Dir(s, d).next.None? then s
    else
      MoveShrinks(s, d);
      DrainSide(Move(s, Dir(s, d).next.value), d)
  }

  ghost function Names(l: seq<nat>): set<nat> {
    set x | x in l
  }

  lemma NamesWithout(l: seq<nat>, x: nat)
    requires x in l
    ensures Names(l) == {x} + Names(Without(l, x))
  {
  }

  /** What the loop hands out: everything, if it starts at all. */
  ghost function Drained(side: Side): set<nat> {
    if side.next.Some? then Names(side.tree) else {}
  }

  lemma {:induction false} DrainSideEmpties(s: St, d: bool)
    requires Linked(s)
    ensures var r := DrainSide(s, d);
            && Linked(r) && Dir(r, !d) == Dir(s, !d) && r.t == s.t && r.out == s.out + Drained(Dir(s, d))
            && (if Dir(s, d).next.Some? then Dir(r, d).tree == [] else r == s)
    decreases |Dir(s, d).tree|
  {
    hide Linked, Move, Without, Dir, Names;
    if Dir(s, d).next.Some? {
      MoveShrinks(s, d);
      var x := Dir(s, d).next.value;
      MoveFields(s, x);
      DrainSideEmpties(Move(s, x), d);
      NextIsIn(s, d);
      NamesWithout(Dir(s, d).tree, x);
      NamesEmpty();
    }
  }

  lemma NamesEmpty()
    ensures Names([]) == {}
  {
  }

  lemma TreeEmpty(s: St, d: bool)
    requires Linked(s)
    ensures Dir(s, d).tree == [] ==> Dir(s, d).next.None?
    ensures Dir(s, d).tree == [] <==> Dir(s, d).fifo == []
  {
    assert Dir(s, d).tree != [] ==> Dir(s, d).tree[0] in Dir(s, d).fifo;
    assert Dir(s, d).fifo != [] ==> Dir(s, d).fifo[0] in Dir(s, d).tree;
  }

  lemma NextIsIn(s: St, d: bool)
    requires Linked(s) && Dir(s, d).next.Some?
    ensures Dir(s, d).next.value in Dir(s, d).tree
  {
  }

  /** Accounting is reset first. */
  function ResetCtl(c: Ctl): Ctl {
    c.(dir := true, changed := false, newBatch := false)
  }

  /** as_dispatch_request with force. */
  ghost function Forced(s: St): St
    requires Linked(s)
  {
    CtlLinked(s, ResetCtl(s.c));
    var s1 := s.(c := ResetCtl(s.c));
    DrainSideEmpties(s1, true);
    DrainSide(DrainSide(s1, true), false)
  }

  lemma ForcedLinked(s: St)
    requires Linked(s)
    ensures var r := Forced(s);
            && Linked(r) && r.t == s.t && r.out == s.out + Drained(s.sync) + Drained(s.async)
            && (if s.sync.next.Some? then r.sync.tree == [] else r.sync == s.sync)
            && (if s.async.next.Some? then r.async.tree == [] else r.async == s.async)
  {
    hide SideOk, DrainSide, Drained;
    CtlLinked(s, ResetCtl(s.c));
    var s1 := s.(c := ResetCtl(s.c));
    DrainSideEmpties(s1, true);
    DrainSideEmpties(DrainSide(s1, true), false);
  }

  /**
   Forced dispatch empties both indexes of both directions, and hands out everything that was queued,
   exactly if every direction with a request has a next_rq.
   */
  lemma ForcedDrains(s: St)
    requires Linked(s)
    ensures var r := Forced(s);
            && (Found(s) <==> r.sync.tree == r.sync.fifo == [] && r.async.tree == r.async.fifo == [])
            && (Found(s) ==> r.out == s.out + Names(s.sync.tree) + Names(s.async.tree))
  {
    hide SideOk, Forced;
    ForcedLinked(s);
    TreeEmpty(s, true);
    TreeEmpty(s, false);
    TreeEmpty(Forced(s), true);
    TreeEmpty(Forced(s), false);
    NamesEmpty();
  }

  ghost predicate OneDirection(s: St) {
    forall x, y | x in s.out && y in s.out :: x in s.t && y in s.t && s.t[x].sync == s.t[y].sync
  }

  /** Forced dispatch mixes directions exactly if both were around. */
  lemma ForcedMixes(s: St)
    requires Linked(s)
    ensures OneDirection(Forced(s)) <==>
            ((s.sync.next.None? && forall x | x in s.out :: !s.t[x].sync) ||
             (s.async.next.None? && forall x | x in s.out :: s.t[x].sync))
  {
    hide Forced, SideOk;
    ForcedLinked(s);
    TreeDir(s, true);
    TreeDir(s, false);
    TreeEmpty(s, true);
    TreeEmpty(s, false);
    var r := Forced(s);
    assert s.sync.next.Some? ==> s.sync.tree[0] in r.out && r.t[s.sync.tree[0]].sync;
    assert s.async.next.Some? ==> s.async.tree[0] in r.out && !r.t[s.async.tree[0]].sync;
    forall x | x in r.out ensures x in s.out || x in Drained(s.sync) || x in Drained(s.async) {}
    forall x | x in s.out ensures x in r.out {}
    hide Linked;
  }

  // ----------------------------------------------------------------------- the runs

  datatype Step =
    | AddStep(x: nat, rq: Rq, stats: bool)
    | DispatchStep(e: Env)
    | ForcedStep                                      // as_dispatch_request with force
    | ActivateStep(x: nat)                            // as_activate_request
    | DeactivateStep(x: nat)                          // as_deactivate_request, on a requeue
    | CompleteStep(x: nat, batch: nat, time: int)
    | BackMergeStep(x: nat, n: nat)
    | FrontMergeStep(x: nat, n: nat)
    | MergeStep(x: nat, y: nat)
    | TimeoutStep

  /** No queued request of the direction overlaps the new one. */
  predicate Clear(t: Table, l: seq<nat>, rq: Rq) {
    rq.nr > 0 && forall x | x in l :: 
      x in t && ((t[x].sector < rq.sector && t[x].End() <= rq.sector) || rq.End() <= t[x].sector)
  }

  ghost predicate Enabled(s: St, step: Step)
    requires Linked(s)
  {
    match step
    case AddStep(x, _, _) => x !in s.t
    case DispatchStep(_) => true
    case ForcedStep => true
    case ActivateStep(x) => x in s.out && x !in s.active
    case DeactivateStep(x) => x in s.active
    case CompleteStep(x, _, _) => x in s.active
    case BackMergeStep(x, n) => Queued(s, x)
    case FrontMergeStep(x, n) => Queued(s, x) && n <= s.t[x].sector
    case MergeStep(x, y) => Queued(s, x) && Queued(s, y) && x != y && s.t[x].sync == s.t[y].sync
    case TimeoutStep => true
  }

  /** The queued request that this step dispatches because another one comes to stand at its sector. */
  ghost function AliasOf(s: St, step: Step): Option<nat>
    requires Linked(s) && Enabled(s, step)
  {
    match step
    case AddStep(x, rq, _) =>
      FreshLinked(s, x, rq);
      TreeSorted(s.(t := s.t[x := rq]), rq.sync);
      Find(s.t[x := rq], Dir(s, rq.sync).tree, rq.sector)
    case FrontMergeStep(x, n) => FrontAlias(s, x, n)
    case _ => None
  }

  /** Whatever is dispatched besides as_dispatch_request's own choice is of the batch that runs. */
  ghost predicate InBatch(s: St, step: Step)
    requires Linked(s) && Enabled(s, step)
  {
    match step
    case AddStep(x, rq, _) => AliasOf(s, step).Some? ==> rq.sync == s.c.dir && !s.c.changed
    case FrontMergeStep(x, n) => AliasOf(s, step).Some? ==> s.t[x].sync == s.c.dir && !s.c.changed
    case ForcedStep => s.async.next.None? && forall x | x in s.out :: s.t[x].sync
    case _ => true
  }

  /** The step forgets next_rq: the alias of a front merge was the only other request of its direction. */
  ghost predicate Loses(s: St, step: Step)
    requires Linked(s) && Enabled(s, step)
  {
    step.FrontMergeStep? && AliasOf(s, step).Some? && |Dir(s, s.t[step.x].sync).tree| == 2
  }

  /**
   Requests are not empty and do not overlap per direction, and a front merge is one after which the cached
   request is still the best, by the exact test of FrontMergeKeepsBest.
   */
  ghost predicate Spaced(s: St, step: Step)
    requires Linked(s) && Enabled(s, step)
  {
    match step
    case AddStep(x, rq, _) => Clear(s.t, Dir(s, rq.sync).tree, rq)
    case BackMergeStep(x, n) => Apart(BackMerge(s, x, n).t, Dir(s, s.t[x].sync).tree)
    case FrontMergeStep(x, n) =>
      var side := Dir(s, s.t[x].sync);
      QueuedKnown(s, s.t[x].sync, x);
      TreeSorted(s, s.t[x].sync);
      Apart(FrontMerged(s.t, x, n), side.tree) && StaysBest(s.t, side.last, side.tree, side.next, x, n)
    case MergeStep(x, y) => s.t[x].End() == s.t[y].sector
    case _ => true
  }

  ghost function Apply(s: St, step: Step): St
    requires Linked(s) && Enabled(s, step)
  {
    match step
    case AddStep(x, rq, stats) => Add(s, x, rq, stats)
    case DispatchStep(e) => Dispatch(s, e).0
    case ForcedStep => Forced(s)
    case ActivateStep(x) => s.(active := s.active + {x})
    case DeactivateStep(x) => s.(active := s.active - {x})
    case CompleteStep(x, batch, time) => Complete(s, x, batch, time)
    case BackMergeStep(x, n) => BackMerge(s, x, n)
    case FrontMergeStep(x, n) => FrontMerge(s, x, n)
    case MergeStep(x, y) => MergeRequests(s, x, y)
    case TimeoutStep => s.(c := Timeout(s.c))
  }

  // ------------------------------------------------- one direction at a time (batches)

  /** Every outstanding request is of the current direction, or of the other one while the batch changes. */
  ghost predicate OneWay(s: St) {
    forall x | x in s.out :: x in s.t && s.t[x].sync == (s.c.dir != s.c.changed)
  }

  ghost predicate Flags(c: Ctl) {
    && !(c.changed && c.newBatch)
    && (c.newBatch ==> c.dir)
    && (Waiting(c.antic) ==> c.ioc != 0)
    && !c.bug
  }

  ghost predicate Good(s: St) {
    Linked(s) && OneWay(s) && Flags(s.c) && (s.c.changed ==> s.out != {})
  }

  lemma MoveGood(s: St, x: nat)
    requires Linked(s) && OneWay(s) && Flags(s.c) && !s.c.changed && Queued(s, x) && s.t[x].sync == s.c.dir
    ensures Good(Move(s, x))
  {
    hide Linked, SideMove;
    MoveLinked(s, x);
  }

  lemma FinishGood(s: St, rq: nat)
    requires Linked(s) && OneWay(s) && Flags(s.c) && Queued(s, rq) && s.t[rq].sync == s.c.dir
    ensures Good(Finish(s, rq).0)
  {
    hide SideOk, Move;
    if s.c.changed {
      if s.nrDispatched == 0 {
        var c := Flag(s.c, s.c.newBatch);
        assert s.out == {};
        MoveGood(s.(c := c.(newBatch := c.newBatch || c.dir, changed := false)), rq);
      }
    } else {
      MoveGood(s, rq);
    }
  }

  lemma IssueGood(s: St, rq: nat, e: Env)
    requires Linked(s) && OneWay(s) && Flags(s.c) && Queued(s, rq) && s.t[rq].sync == s.c.dir
    ensures Good(Issue(s, rq, e).0)
  {
    hide Linked, Flags, OneWay, Finish;
    if FifoExpired(s, s.c.dir, e.fifoUpAgain) {
      FifoQueued(s, s.c.dir);
      FinishGood(s, Dir(s, s.c.dir).fifo[0]);
    } else {
      FinishGood(s, rq);
    }
  }

  lemma SelectGood(s: St, e: Env)
    requires Good(s) && !s.c.changed && (s.sync.fifo != [] || s.async.fifo != [])
    ensures Good(SelectBatch(s, e).0)
  {
    hide Issue, SideOk;
    if s.sync.fifo != [] && !(s.async.fifo != [] && s.c.dir) {
      FifoQueued(s, true);
      IssueGood(s.(c := StartReads(Flag(s.c, s.sync.tree == []))), s.sync.fifo[0], e);
    } else {
      FifoQueued(s, false);
      IssueGood(s.(c := StartWrites(Flag(s.c, s.async.tree == []))), s.async.fifo[0], e);
    }
  }

  lemma DispatchGood(s: St, e: Env)
    requires Good(s)
    ensures Good(Dispatch(s, e).0)
  {
    hide Issue, SelectBatch, Finish, SideOk;
    var c := Idle(s.c, s.sync.fifo != [], s.async.fifo != []);
    var s0 := s.(c := c);
    assert Good(s0);
    if (s.sync.fifo == [] && s.async.fifo == []) || Waiting(c.antic) || c.changed {
    } else if s.sync.fifo != [] && s.async.fifo != [] && BatchExpired(c, e) {
      SelectGood(s0, e);
    } else {
      var rq := Dir(s0, c.dir).next;
      if c.dir && e.anticipates && FifoExpired(s0, true, e.fifoUp) {
        FifoQueued(s0, true);
        FinishGood(s0, s0.sync.fifo[0]);
      } else if c.dir && e.anticipates && CanAnticipate(s0, rq, e) {
      } else if rq.Some? {
        NextQueued(s0, c.dir);
        IssueGood(s0, rq.value, e);
      } else {
        SelectGood(s0, e);
      }
    }
  }

  /** Without an alias the request just joins its direction. */
  lemma PlainEnqueue(s: St, x: nat, rq: Rq)
    requires Linked(s) && x !in s.t && forall y | y in Dir(s, rq.sync).tree :: y in s.t && s.t[y].sector != rq.sector
    ensures var t := s.t[x := rq];
            && Find(t, Dir(s, rq.sync).tree, rq.sector).None?
            && Enqueue(s, x, rq) == PutDir(s.(t := t), rq.sync, SideAdd(t, Dir(s, rq.sync), x))
  {
    hide SideAdd, SideOk;
    FreshLinked(s, x, rq);
    var t, tree := s.t[x := rq], Dir(s, rq.sync).tree;
    TreeSorted(s, rq.sync);
    forall i | 0 <= i < |tree| ensures t[tree[i]].sector != rq.sector {
      assert tree[i] in tree;
    }
  }

  lemma AddLinked(s: St, x: nat, rq: Rq, stats: bool)
    requires Linked(s) && x !in s.t
    ensures Linked(Add(s, x, rq, stats))
  {
    hide Linked, Enqueue;
    EnqueueLinked(s, x, rq);
    var s1 := Enqueue(s, x, rq);
    CtlLinked(s1, NewcomerCtl(s1, x, stats));
  }

  /** The alias is moved, and stays behind when the newcomer takes its place. */
  lemma AddAliased(s: St, x: nat, rq: Rq, stats: bool, a: nat)
    requires Linked(s) && x !in s.t && AliasOf(s, AddStep(x, rq, stats)) == Some(a)
    ensures a in Dir(s, rq.sync).tree && a in s.t && s.t[a].sync == rq.sync
    ensures var r := Add(s, x, rq, stats);
            r.out == s.out + {a} && r.t == s.t[x := rq] && r.c == AnticStop(MoveCtl(s.c, s.t[a]))
  {
    hide SideOk, Outstanding, MoveAlias, Enqueue, Find;
    var s0, d := s.(t := s.t[x := rq]), rq.sync;
    FreshLinked(s, x, rq);
    TreeSorted(s0, d);
    TreeDir(s, d);
    MoveAliasIs(s0, d, rq.sector, a);
    EnqueueFields(s, x, rq);
  }

  lemma MoveAliasIs(s: St, d: bool, sector: nat, a: nat)
    requires Linked(s) && Find(s.t, Dir(s, d).tree, sector) == Some(a)
    ensures a in s.t
    ensures var r := MoveAlias(s, d, sector); r.out == s.out + {a} && r.c == AnticStop(MoveCtl(s.c, s.t[a]))
  {
    hide SideOk, Outstanding, SideMove, Move;
    TreeSorted(s, d);
    hide Find, Sorted;
    QueuedKnown(s, d, a);
    MoveFields(s, a);
    MovedCtl(s, a);
  }

  lemma EnqueueFields(s: St, x: nat, rq: Rq)
    requires Linked(s) && x !in s.t
    ensures Linked(s.(t := s.t[x := rq]))
    ensures var m, r := MoveAlias(s.(t := s.t[x := rq]), rq.sync, rq.sector), Enqueue(s, x, rq);
            r.out == m.out && r.c == m.c && r.t == s.t[x := rq]
  {
    hide SideOk, Outstanding, MoveAlias, SideAdd;
    FreshLinked(s, x, rq);
    MoveAliasLinked(s.(t := s.t[x := rq]), rq.sync, rq.sector);
  }

  lemma MovedCtl(s: St, x: nat)
    requires Linked(s) && Queued(s, x)
    ensures Move(s, x).c == MoveCtl(s.c, s.t[x]) && Move(s, x).c.antic == Off
  {
    hide SideOk, SideMove;
  }

  /** An alias of the batch that runs may be dispatched. */
  lemma AliasGood(s: St, r: St, a: nat)
    requires Good(s) && Linked(r) && a in s.t && s.t[a].sync == s.c.dir && !s.c.changed
    requires r.c == AnticStop(MoveCtl(s.c, s.t[a])) && r.out == s.out + {a}
    requires forall x | x in s.t :: x in r.t && r.t[x].sync == s.t[x].sync
    ensures Good(r)
  {
    hide SideOk;
    assert forall x | x in s.out :: x in s.t;
  }

  lemma AddGood(s: St, x: nat, rq: Rq, stats: bool)
    requires Good(s) && x !in s.t && InBatch(s, AddStep(x, rq, stats))
    ensures Good(Add(s, x, rq, stats))
  {
    hide Linked, SideAdd, Enqueue, Add;
    AddLinked(s, x, rq, stats);
    match AliasOf(s, AddStep(x, rq, stats)) {
      case Some(a) =>
        AddAliased(s, x, rq, stats, a);
        AliasGood(s, Add(s, x, rq, stats), a);
      case None =>
        NoAlias(s, x, rq, stats);
        AddPlainGood(s, x, rq, stats);
    }
  }

  lemma NoAlias(s: St, x: nat, rq: Rq, stats: bool)
    requires Linked(s) && x !in s.t && AliasOf(s, AddStep(x, rq, stats)).None?
    ensures forall y | y in Dir(s, rq.sync).tree :: y in s.t && s.t[y].sector != rq.sector
  {
    FreshLinked(s, x, rq);
    TreeDir(s, rq.sync);
    var tree := Dir(s, rq.sync).tree;
    forall y | y in tree ensures s.t[y].sector != rq.sector {
      assert tree[Index(tree, y)] == y;
    }
  }

  lemma AddPlainGood(s: St, x: nat, rq: Rq, stats: bool)
    requires Good(s) && x !in s.t && forall y | y in Dir(s, rq.sync).tree :: y in s.t && s.t[y].sector != rq.sector
    ensures Good(Add(s, x, rq, stats))
  {
    hide Linked, SideAdd, Enqueue;
    AddLinked(s, x, rq, stats);
    PlainEnqueue(s, x, rq);
  }

  lemma FrontMergeGood(s: St, x: nat, n: nat)
    requires Good(s) && Queued(s, x) && n <= s.t[x].sector && InBatch(s, FrontMergeStep(x, n))
    ensures Good(FrontMerge(s, x, n))
  {
    hide Linked, FrontMerge, FrontAlias;
    FrontMergeLinked(s, x, n);
    FrontAliasIs(s, x, n);
    match FrontAlias(s, x, n) {
      case None => TableGood(s, FrontMerge(s, x, n));
      case Some(a) =>
        TreeDir(s, s.t[x].sync);
        AliasGood(s, FrontMerge(s, x, n), a);
    }
  }

  /** Draining leaves the batch alone. */
  lemma {:induction false} DrainSideCtl(s: St, d: bool)
    requires Linked(s)
    ensures var c := DrainSide(s, d).c;
            && c.dir == s.c.dir && c.changed == s.c.changed && c.newBatch == s.c.newBatch && c.bug == s.c.bug
            && (Waiting(c.antic) ==> Waiting(s.c.antic) && c.ioc == s.c.ioc)
    decreases |Dir(s, d).tree|
  {
    hide Linked, Move;
    if Dir(s, d).next.Some? {
      MoveShrinks(s, d);
      MovedCtl(s, Dir(s, d).next.value);
      DrainSideCtl(Move(s, Dir(s, d).next.value), d);
    }
  }

  lemma ForcedGood(s: St)
    requires Good(s) && InBatch(s, ForcedStep)
    ensures Good(Forced(s))
  {
    hide Linked, DrainSide, Names;
    ForcedLinked(s);
    TreeDir(s, true);
    CtlLinked(s, ResetCtl(s.c));
    var s1 := s.(c := ResetCtl(s.c));
    DrainSideEmpties(s1, true);
    DrainSideCtl(s1, true);
    DrainSideCtl(DrainSide(s1, true), false);
    assert forall x | x in Names(s.sync.tree) :: x in s.sync.tree by {
      NamesAre(s.sync.tree);
    }
  }

  lemma NamesAre(l: seq<nat>)
    ensures forall x :: x in Names(l) <==> x in l
  {
  }

  lemma CompleteLinked(s: St, x: nat, batch: nat, time: int)
    requires Linked(s) && x in s.active
    ensures Linked(Complete(s, x, batch, time))
  {
    hide SideOk, BatchCompleted, AnticCompleted;
  }

  lemma CompleteGood(s: St, x: nat, batch: nat, time: int)
    requires Good(s) && x in s.active
    ensures Good(Complete(s, x, batch, time))
  {
    hide SideOk, WriteBatch;
    CompleteLinked(s, x, batch, time);
    if s.nrDispatched == 1 {
      assert s.out == {x};
    } else {
      assert |s.out - {x}| == |s.out| - 1;
      assert s.out - {x} != {};
    }
    hide Linked;
  }

  /** Merging touches neither what is outstanding nor the batches. */
  lemma TableGood(s: St, r: St)
    requires Good(s) && Linked(r) && r.c == s.c && r.out == s.out
    requires forall x | x in s.t :: x in r.t && r.t[x].sync == s.t[x].sync
    ensures Good(r)
  {
    hide Linked;
    assert forall x | x in s.out :: x in s.t;
  }

  lemma StepGood(s: St, step: Step)
    requires Good(s) && Enabled(s, step) && InBatch(s, step)
    ensures Good(Apply(s, step))
  {
    hide SideOk, Add, Dispatch, Complete, FrontMerge, SideRemove, MergedFifo, Forced, FrontAlias;
    match step {
      case AddStep(x, rq, stats) => AddGood(s, x, rq, stats);
      case DispatchStep(e) => DispatchGood(s, e);
      case ForcedStep => ForcedGood(s);
      case ActivateStep(x) =>
      case DeactivateStep(x) =>
      case CompleteStep(x, batch, time) => CompleteGood(s, x, batch, time);
      case BackMergeStep(x, n) =>
        BackMergeLinked(s, x, n);
        TableGood(s, BackMerge(s, x, n));
      case FrontMergeStep(x, n) => FrontMergeGood(s, x, n);
      case MergeStep(x, y) =>
        MergeRequestsLinked(s, x, y);
        TableGood(s, MergeRequests(s, x, y));
      case TimeoutStep =>
    }
  }

  // --------------------------------------------------------- the cache over whole runs

  ghost predicate SideCached(t: Table, side: Side) {
    Best(t, side.last, side.tree, side.next) && Apart(t, side.tree)
  }

  /** next_rq is the best of all of sort_list, in both directions. */
  ghost predicate Cached(s: St) {
    SideCached(s.t, s.sync) && SideCached(s.t, s.async)
  }

  lemma SideFrame(t: Table, t': Table, side: Side)
    requires SideCached(t, side) && forall x | x in side.tree :: x in t' && t'[x] == t[x]
    ensures SideCached(t', side)
  {
    hide Before;
  }

  lemma BestFrame(t: Table, t': Table, last: nat, l: seq<nat>, next: Option<nat>)
    requires Best(t, last, l, next) && forall x | x in l :: x in t && x in t' && t'[x].sector == t[x].sector
    ensures Best(t', last, l, next)
  {
    hide Before;
  }

  lemma MoveCached(s: St, x: nat)
    requires Linked(s) && Queued(s, x) && Cached(s)
    ensures Cached(Move(s, x))
  {
    hide SideMove, SideOk, Best, FindNext, Before, Without;
    var d := s.t[x].sync;
    var side := Dir(s, d);
    TreeSorted(s, d);
    MoveFields(s, x);
    SideMoveOk(s.t, d, side, x);
    DispatchedNeighboursSuffice(s.t, side.tree, x);
  }

  /** The outcome is to move x, the cached or the oldest request of its direction, or to leave the queues alone. */
  ghost predicate Shaped(s: St, r: (St, bool), c: Ctl, x: nat) {
    if r.1 then
      && Queued(s, x) && Linked(s.(c := c)) && r.0 == Move(s.(c := c), x)
      && (Some(x) == Dir(s, s.t[x].sync).next || x == Dir(s, s.t[x].sync).fifo[0])
    else r.0 == s.(c := r.0.c)
  }

  lemma ShapedCtl(s: St, c0: Ctl, r: (St, bool), c: Ctl, x: nat)
    requires Linked(s) && Shaped(s.(c := c0), r, c, x)
    ensures Shaped(s, r, c, x)
  {
    hide SideOk, Move;
  }

  lemma DispatchShape(s: St, e: Env) returns (c: Ctl, x: nat)
    requires Linked(s)
    ensures Shaped(s, Dispatch(s, e), c, x)
  {
    hide SideOk, Move, Issue, SelectBatch, Finish, Shaped, Waiting;
    var c0 := Idle(s.c, s.sync.fifo != [], s.async.fifo != []);
    var s0 := s.(c := c0);
    c, x := c0, 0;
    if (s.sync.fifo == [] && s.async.fifo == []) || Waiting(c0.antic) || c0.changed {
      KeptShape(s, c0, c, x);
    } else if s.sync.fifo != [] && s.async.fifo != [] && BatchExpired(c0, e) {
      c, x := SelectShape(s0, e);
      ShapedCtl(s, c0, SelectBatch(s0, e), c, x);
    } else {
      var rq := Dir(s0, c0.dir).next;
      if c0.dir && e.anticipates && FifoExpired(s0, true, e.fifoUp) {
        FifoQueued(s0, true);
        c, x := FinishShape(s0, s0.sync.fifo[0]);
      } else if c0.dir && e.anticipates && CanAnticipate(s0, rq, e) {
        KeptShape(s0, WaitForReq(c0), c, x);
      } else if rq.Some? {
        NextQueued(s0, c0.dir);
        c, x := IssueShape(s0, rq.value, e);
      } else {
        c, x := SelectShape(s0, e);
      }
      ShapedCtl(s, c0, Dispatch(s, e), c, x);
    }
  }

  lemma KeptShape(s: St, c1: Ctl, c: Ctl, x: nat)
    ensures Shaped(s, (s.(c := c1), false), c, x)
  {
  }

  lemma FinishShape(s: St, rq: nat) returns (c: Ctl, x: nat)
    requires Linked(s) && Queued(s, rq)
    requires Some(rq) == Dir(s, s.t[rq].sync).next || rq == Dir(s, s.t[rq].sync).fifo[0]
    ensures Shaped(s, Finish(s, rq), c, x)
  {
    hide SideOk, Move;
    x := rq;
    c := if !s.c.changed then s.c
    else Flag(s.c, s.c.newBatch).(newBatch := Flag(s.c, s.c.newBatch).newBatch || Flag(s.c, s.c.newBatch).dir, changed := false);
  }

  lemma IssueShape(s: St, rq: nat, e: Env) returns (c: Ctl, x: nat)
    requires Linked(s) && Queued(s, rq)
    requires Some(rq) == Dir(s, s.t[rq].sync).next || rq == Dir(s, s.t[rq].sync).fifo[0]
    ensures Shaped(s, Issue(s, rq, e), c, x)
  {
    hide Linked, Finish, Move;
    if FifoExpired(s, s.c.dir, e.fifoUpAgain) {
      FifoQueued(s, s.c.dir);
      c, x := FinishShape(s, Dir(s, s.c.dir).fifo[0]);
    } else {
      c, x := FinishShape(s, rq);
    }
  }

  lemma SelectShape(s: St, e: Env) returns (c: Ctl, x: nat)
    requires Linked(s)
    ensures Shaped(s, SelectBatch(s, e), c, x)
  {
    hide SideOk, Issue, Move;
    c, x := s.c, 0;
    if s.sync.fifo != [] && !(s.async.fifo != [] && s.c.dir) {
      FifoQueued(s, true);
      c, x := IssueShape(s.(c := StartReads(Flag(s.c, s.sync.tree == []))), s.sync.fifo[0], e);
    } else if s.async.fifo != [] {
      FifoQueued(s, false);
      c, x := IssueShape(s.(c := StartWrites(Flag(s.c, s.async.tree == []))), s.async.fifo[0], e);
    }
  }

  lemma AddCached(s: St, x: nat, rq: Rq, stats: bool)
    requires Linked(s) && Cached(s) && x !in s.t && Clear(s.t, Dir(s, rq.sync).tree, rq)
    ensures Cached(Add(s, x, rq, stats))
  {
    hide SideOk, Enqueue, Before, Choose, Best, Insert;
    var d, t' := rq.sync, s.t[x := rq];
    var side := Dir(s, d);
    FreshLinked(s, x, rq);
    PlainEnqueue(s, x, rq);
    SideFrame(s.t, t', s.sync);
    SideFrame(s.t, t', s.async);
    TreeSorted(s.(t := t'), d);
    AddedBest(t', side.last, side.tree, x, side.next);
    AddedApart(t', side.tree, x);
  }

  lemma AddedApart(t: Table, l: seq<nat>, x: nat)
    requires Known(t, l) && Apart(t, l) && x in t && Clear(t, l, t[x])
    ensures Apart(t, Insert(t, l, x))
  {
    hide Known;
  }

  lemma MergeApart(t: Table, l: seq<nat>, x: nat, y: nat)
    requires Apart(t, l) && x in l && y in l && x != y && t[x].End() == t[y].sector
    ensures Apart(MergedTable(t, x, y), Without(l, y))
  {
    var t' := MergedTable(t, x, y);
    assert t'[x].End() == t[y].End() && t'[x].sector == t[x].sector && t'[x].nr > 0;
    assert forall z | z in t && z != x :: t'[z] == t[z];
    hide MergedTable;
    forall b | b in l && b != x && b != y
      ensures t'[x].End() <= t'[b].sector || t'[b].End() <= t'[x].sector
    {
      assert t[b].nr > 0;
    }
  }

  lemma SideRemoveBest(t: Table, side: Side, y: nat)
    requires Sorted(t, side.tree) && y in side.tree && Best(t, side.last, side.tree, side.next)
    ensures var r := SideRemove(t, side, y); Best(t, side.last, r.tree, r.next)
  {
    hide Before, FindNext;
    if side.next == Some(y) {
      RemovedNeighboursSuffice(t, side.last, side.tree, y);
    } else {
      OtherRemoved(t, side.last, side.tree, side.next.value, y);
    }
  }

  lemma MergeCached(s: St, x: nat, y: nat)
    requires Linked(s) && Cached(s) && Enabled(s, MergeStep(x, y)) && Spaced(s, MergeStep(x, y))
    ensures Cached(MergeRequests(s, x, y))
  {
    hide SideOk, Best, FindNext, Without, MergedFifo;
    var d, t' := s.t[x].sync, MergedTable(s.t, x, y);
    QueuedKnown(s, d, x);
    QueuedKnown(s, d, y);
    MergedTableLinked(s, x, y);
    TreeSorted(s.(t := t'), d);
    var side := Dir(s, d).(fifo := MergedFifo(s.t, Dir(s, d).fifo, x, y));
    TreeKnown(s, d);
    BestFrame(s.t, t', side.last, side.tree, side.next);
    SideRemoveBest(t', side, y);
    MergeApart(s.t, side.tree, x, y);
    SideFrame(s.t, t', Dir(s, !d));
  }

  lemma TreeKnown(s: St, d: bool)
    requires Linked(s)
    ensures forall x | x in Dir(s, d).tree :: x in s.t
  {
  }

  lemma BackMergeCached(s: St, x: nat, n: nat)
    requires Linked(s) && Cached(s) && Enabled(s, BackMergeStep(x, n)) && Spaced(s, BackMergeStep(x, n))
    ensures Cached(BackMerge(s, x, n))
  {
    hide SideOk, Best;
    var d, t' := s.t[x].sync, BackMerge(s, x, n).t;
    var side := Dir(s, d);
    QueuedKnown(s, d, x);
    TreeKnown(s, d);
    BestFrame(s.t, t', side.last, side.tree, side.next);
    SideFrame(s.t, t', Dir(s, !d));
  }

  /** Requests that stay apart stay in order. */
  lemma GrownSorted(t: Table, l: seq<nat>, x: nat, n: nat)
    requires Sorted(t, l) && Apart(t, l) && x in l && x in t && n <= t[x].sector && Apart(FrontMerged(t, x, n), l)
    ensures Sorted(FrontMerged(t, x, n), l)
  {
    var t' := FrontMerged(t, x, n);
    forall i, j | 0 <= i < j < |l| ensures l[i] in t' && l[j] in t' && t'[l[i]].sector < t'[l[j]].sector {
      assert l[i] in l && l[j] in l && t[l[i]].sector < t[l[j]].sector;
    }
  }

  lemma FrontMergeCached(s: St, x: nat, n: nat)
    requires Linked(s) && Cached(s) && Enabled(s, FrontMergeStep(x, n)) && Spaced(s, FrontMergeStep(x, n))
    ensures Cached(FrontMerge(s, x, n))
  {
    hide SideOk, Best, FrontMerge, FrontAlias, Sorted, StaysBest, Outstanding;
    var d, t' := s.t[x].sync, FrontMerged(s.t, x, n);
    var side, r := Dir(s, d), FrontMerge(s, x, n);
    QueuedKnown(s, d, x);
    TreeSorted(s, d);
    GrownSorted(s.t, side.tree, x, n);
    FrontMergeKeepsBest(s.t, side.last, side.tree, side.next, x, n);
    FrontMergeLinked(s, x, n);
    FrontAliasIs(s, x, n);
    assert FrontAlias(s, x, n).None? by {
      SortedApart(t', side.tree, x, FrontAlias(s, x, n));
    }
    TreeSorted(r, d);
    SortedUnique(t', Dir(r, d).tree, side.tree);
    FrontMergeLast(s, x, n);
    TreeDir(s, !d);
    SideFrame(s.t, t', Dir(s, !d));
  }

  lemma SortedApart(t: Table, l: seq<nat>, x: nat, a: Option<nat>)
    requires Apart(t, l) && x in l && (a.Some? ==> a.value in l && a.value != x && t[a.value].sector == t[x].sector)
    ensures a.None?
  {
  }

  lemma FrontMergeLast(s: St, x: nat, n: nat)
    requires Linked(s) && Queued(s, x) && n <= s.t[x].sector && FrontAlias(s, x, n).None?
    ensures Dir(FrontMerge(s, x, n), s.t[x].sync).last == Dir(s, s.t[x].sync).last
  {
    hide SideOk, FrontAlias;
    KnownMore(s, s.t[x].sync, FrontMerged(s.t, x, n));
    WithoutKnown(FrontMerged(s.t, x, n), Dir(s, s.t[x].sync).tree, x);
  }

  lemma DispatchCached(s: St, e: Env)
    requires Linked(s) && Cached(s)
    ensures Cached(Dispatch(s, e).0)
  {
    hide SideOk, Dispatch, Move, SideCached;
    var c, x := DispatchShape(s, e);
    if Dispatch(s, e).1 {
      MoveCached(s.(c := c), x);
    }
  }

  lemma {:induction false} DrainSideCached(s: St, d: bool)
    requires Linked(s) && Cached(s)
    ensures Cached(DrainSide(s, d))
    decreases |Dir(s, d).tree|
  {
    hide Linked, Move, Cached;
    if Dir(s, d).next.Some? {
      MoveShrinks(s, d);
      MoveCached(s, Dir(s, d).next.value);
      DrainSideCached(Move(s, Dir(s, d).next.value), d);
    }
  }

  lemma ForcedCached(s: St)
    requires Linked(s) && Cached(s)
    ensures Cached(Forced(s))
  {
    hide SideOk, DrainSide, SideCached;
    CtlLinked(s, ResetCtl(s.c));
    var s1 := s.(c := ResetCtl(s.c));
    DrainSideEmpties(s1, true);
    DrainSideCached(s1, true);
    DrainSideCached(DrainSide(s1, true), false);
  }

  lemma StepCached(s: St, step: Step)
    requires Linked(s) && Cached(s) && Enabled(s, step) && Spaced(s, step)
    ensures Cached(Apply(s, step))
  {
    hide SideOk, SideCached, Add, Dispatch, BackMerge, FrontMerge, MergeRequests, BatchCompleted, AnticCompleted, Forced;
    match step {
      case AddStep(x, rq, stats) => AddCached(s, x, rq, stats);
      case DispatchStep(e) => DispatchCached(s, e);
      case ForcedStep => ForcedCached(s);
      case BackMergeStep(x, n) => BackMergeCached(s, x, n);
      case FrontMergeStep(x, n) => FrontMergeCached(s, x, n);
      case MergeStep(x, y) => MergeCached(s, x, y);
      case _ =>
    }
  }

  // ----------------------------------------------------------------- theorems of runs

  /** No step breaks the indexes, aliases and forced dispatch included. */
  lemma StepLinked(s: St, step: Step)
    requires Linked(s) && Enabled(s, step)
    ensures Linked(Apply(s, step))
  {
    hide SideOk, Add, Dispatch, Complete, BackMerge, FrontMerge, MergeRequests, Move, Forced, FrontAlias;
    match step {
      case AddStep(x, rq, stats) => AddLinked(s, x, rq, stats);
      case DispatchStep(e) =>
        var c, x := DispatchShape(s, e);
        if Dispatch(s, e).1 {
          MoveLinked(s.(c := c), x);
        }
      case ForcedStep => ForcedLinked(s);
      case ActivateStep(x) =>
      case DeactivateStep(x) =>
      case CompleteStep(x, batch, time) => CompleteLinked(s, x, batch, time);
      case BackMergeStep(x, n) => BackMergeLinked(s, x, n);
      case FrontMergeStep(x, n) => FrontMergeLinked(s, x, n);
      case MergeStep(x, y) => MergeRequestsLinked(s, x, y);
      case TimeoutStep =>
    }
  }

  /** What the steps of a run are held to. */
  datatype Care = Any | InBatches | SpacedOut | KeepingNext

  ghost predicate Admits(care: Care, s: St, step: Step)
    requires Linked(s) && Enabled(s, step)
  {
    match care
    case Any => true
    case InBatches => InBatch(s, step)
    case SpacedOut => Spaced(s, step)
    case KeepingNext => !Loses(s, step)
  }

  /** r is reached from s by the steps. */
  ghost predicate Runs(care: Care, s: St, steps: seq<Step>, r: St)
    requires Linked(s)
    decreases |steps|
  {
    if steps == [] then r == s
    else
      && Enabled(s, steps[0]) && Admits(care, s, steps[0])
      && (StepLinked(s, steps[0]); Runs(care, Apply(s, steps[0]), steps[1..], r))
  }

  /** A scheduler as as_init_queue leaves it: zeroed, so of direction BLK_RW_ASYNC, but for write_batch_count. */
  ghost predicate Fresh(s: St) {
    && s.sync == Side([], [], None, 0) && s.async == Side([], [], None, 0)
    && s.out == {} && s.active == {} && s.nrDispatched == 0
    && s.c.writeBatchCount >= 2 && s.c == Ctl(false, false, false, s.c.writeBatchCount, 0, false, Off, 0, false, false)
  }

  lemma FreshIsFine(s: St)
    requires Fresh(s)
    ensures Good(s) && Cached(s) && Found(s)
  {
  }

  lemma {:induction false} RunLinked(care: Care, s: St, steps: seq<Step>, r: St)
    requires Linked(s) && Runs(care, s, steps, r)
    ensures Linked(r)
    decreases |steps|
  {
    if steps != [] {
      hide Linked, Apply, Enabled, Admits;
      StepLinked(s, steps[0]);
      RunLinked(care, Apply(s, steps[0]), steps[1..], r);
    }
  }

  /**
   In every run, whatever overlaps, aliases and forced dispatches it brings: tree and FIFO of each
   direction hold the same requests, next_rq is one of them, and none of them is outstanding.
   */
  lemma IndexesAgree(s: St, steps: seq<Step>, r: St)
    requires Fresh(s) && Runs(Any, s, steps, r)
    ensures forall d ::
              && Sorted(r.t, Dir(r, d).tree) && Distinct(Dir(r, d).fifo)
              && (forall x :: x in Dir(r, d).tree <==> x in Dir(r, d).fifo)
              && (Dir(r, d).next.Some? ==> Dir(r, d).next.value in Dir(r, d).tree)
              && (forall x | x in Dir(r, d).tree :: x !in r.out && x !in Dir(r, !d).tree)
    ensures r.nrDispatched == |r.out|
  {
    RunLinked(Any, s, steps, r);
    forall d, x | x in Dir(r, d).tree ensures x !in r.out && x !in Dir(r, !d).tree {
      QueuedKnown(r, d, x);
    }
    hide Sorted, Distinct;
  }

  lemma {:induction false} RunGood(s: St, steps: seq<Step>, r: St)
    requires Good(s) && Runs(InBatches, s, steps, r)
    ensures Good(r)
    decreases |steps|
  {
    if steps != [] {
      hide Linked, Apply, Enabled, InBatch;
      StepLinked(s, steps[0]);
      StepGood(s, steps[0]);
      RunGood(Apply(s, steps[0]), steps[1..], r);
    }
  }

  lemma {:induction false} RunCached(s: St, steps: seq<Step>, r: St)
    requires Linked(s) && Cached(s) && Runs(SpacedOut, s, steps, r)
    ensures Cached(r)
    decreases |steps|
  {
    if steps != [] {
      hide Linked, Apply, Enabled, Spaced, Cached;
      StepLinked(s, steps[0]);
      StepCached(s, steps[0]);
      RunCached(Apply(s, steps[0]), steps[1..], r);
    }
  }

  /**
   In every run in which aliases and forced dispatches are of the batch that runs: outstanding requests
   are all of one direction; changed_batch and new_batch are never both set; new_batch means a
   synchronous batch; and none of the BUG_ON and WARN_ON recorded in bug fires.
   */
  lemma BatchesExclude(s: St, steps: seq<Step>, r: St)
    requires Fresh(s) && Runs(InBatches, s, steps, r)
    ensures forall x, y | x in r.out && y in r.out :: x in r.t && y in r.t && r.t[x].sync == r.t[y].sync
    ensures !(r.c.changed && r.c.newBatch) && (r.c.newBatch ==> r.c.dir) && !r.c.bug
  {
    FreshIsFine(s);
    RunGood(s, steps, r);
    hide Linked;
  }

  /**
   In every run of non-empty requests that do not overlap, its front merges passing the exact test of
   FrontMergeKeepsBest, next_rq is the best of all queued requests of its direction.
   */
  lemma CacheIsBest(s: St, steps: seq<Step>, r: St)
    requires Fresh(s) && Runs(SpacedOut, s, steps, r)
    ensures Best(r.t, r.sync.last, r.sync.tree, r.sync.next)
    ensures Best(r.t, r.async.last, r.async.tree, r.async.next)
  {
    FreshIsFine(s);
    RunCached(s, steps, r);
    hide Linked, Best;
  }

  /** Dispatching an alias outside as_dispatch_request mixes directions exactly if others are outstanding. */
  lemma AliasMixes(s: St, step: Step)
    requires Linked(s) && Enabled(s, step) && AliasOf(s, step).Some?
    ensures var a := AliasOf(s, step).value;
            && a in s.t && Queued(s, a)
            && (OneDirection(Apply(s, step)) <==> forall y | y in s.out :: s.t[y].sync == s.t[a].sync)
  {
    hide Linked, Apply, AliasOf;
    var a := AliasOf(s, step).value;
    AliasApplied(s, step);
    MixedIff(s, Apply(s, step), a);
  }

  lemma AliasApplied(s: St, step: Step)
    requires Linked(s) && Enabled(s, step) && AliasOf(s, step).Some?
    ensures var a, r := AliasOf(s, step).value, Apply(s, step);
            && Queued(s, a) && r.out == s.out + {a} && (forall x | x in s.out :: x in s.t)
            && forall x | x in s.t :: x in r.t && r.t[x].sync == s.t[x].sync
  {
    hide SideOk, Add, FrontMerge, FrontAlias, MoveCtl;
    var a := AliasOf(s, step).value;
    match step {
      case AddStep(x, rq, stats) => AddAliased(s, x, rq, stats, a);
      case FrontMergeStep(x, n) =>
        FrontMergeLinked(s, x, n);
        FrontAliasIs(s, x, n);
        TreeDir(s, s.t[x].sync);
    }
  }

  lemma MixedIff(s: St, r: St, a: nat)
    requires a in s.t && r.out == s.out + {a} && forall x | x in s.out :: x in s.t
    requires forall x | x in s.t :: x in r.t && r.t[x].sync == s.t[x].sync
    ensures OneDirection(r) <==> forall y | y in s.out :: s.t[y].sync == s.t[a].sync
  {
    assert a in r.out;
  }

  // ---------------------------------------------------------------- keeping next_rq

  lemma FrontMergeFoundIff(s: St, x: nat, n: nat)
    requires Linked(s) && Found(s) && Queued(s, x) && n <= s.t[x].sector
    ensures Found(FrontMerge(s, x, n)) <==> !Loses(s, FrontMergeStep(x, n))
  {
    hide SideOk, FrontMerge, FrontAlias, Without;
    var d := s.t[x].sync;
    FrontMergeLinked(s, x, n);
    FrontAliasIs(s, x, n);
    QueuedKnown(s, d, x);
    TreeSorted(s, d);
    SortedDistinct(s.t, Dir(s, d).tree);
    WithoutLength(Dir(s, d).tree, x);
    assert x in Dir(FrontMerge(s, x, n), d).tree;
    if FrontAlias(s, x, n).Some? {
      WithoutLength(Without(Dir(s, d).tree, x), FrontAlias(s, x, n).value);
    }
    hide Sorted;
  }

  lemma AddFound(s: St, x: nat, rq: Rq, stats: bool)
    requires Linked(s) && Found(s) && x !in s.t
    ensures Found(Add(s, x, rq, stats))
  {
    hide SideOk, MoveAlias, SideAdd, Find;
    var d, s0 := rq.sync, s.(t := s.t[x := rq]);
    FreshLinked(s, x, rq);
    MoveAliasLinked(s0, d, rq.sector);
    MoveAliasUnknown(s0, d, rq.sector, x);
    MoveAliasOther(s0, d, rq.sector);
    var s1 := MoveAlias(s0, d, rq.sector);
    TreeSorted(s1, d);
    SideAddOk(s1.t, d, Dir(s1, d), x);
  }

  lemma MoveAliasOther(s: St, d: bool, sector: nat)
    requires Linked(s)
    ensures Dir(MoveAlias(s, d, sector), !d) == Dir(s, !d)
  {
    hide SideOk, SideMove, Move;
    TreeSorted(s, d);
    match Find(s.t, Dir(s, d).tree, sector) {
      case None =>
      case Some(a) =>
        QueuedKnown(s, d, a);
        MoveFields(s, a);
    }
  }

  lemma MoveFound(s: St, x: nat)
    requires Linked(s) && Found(s) && Queued(s, x)
    ensures Found(Move(s, x))
  {
    hide SideOk, SideMove, Move, FindNext;
    MoveFields(s, x);
    SideMoveOk(s.t, s.t[x].sync, Dir(s, s.t[x].sync), x);
  }

  lemma MergeFound(s: St, x: nat, y: nat)
    requires Linked(s) && Found(s) && Enabled(s, MergeStep(x, y))
    ensures Found(MergeRequests(s, x, y))
  {
    hide SideOk, SideRemove, MergedTable, MergedFifo, Sorted, Known, Distinct, Without;
    var d, t' := s.t[x].sync, MergedTable(s.t, x, y);
    MergedTableLinked(s, x, y);
    QueuedKnown(s, d, x);
    QueuedKnown(s, d, y);
    TreeSorted(s.(t := t'), d);
    MergedFifoOk(s.t, t', d, Dir(s, d), x, y);
    SideRemoveOk(t', d, Dir(s, d).(fifo := MergedFifo(s.t, Dir(s, d).fifo, x, y)), y);
  }

  /** A step that starts with a next_rq for every direction that has requests ends so exactly if it does not lose it. */
  lemma StepFoundIff(s: St, step: Step)
    requires Linked(s) && Found(s) && Enabled(s, step)
    ensures Found(Apply(s, step)) <==> !Loses(s, step)
  {
    hide SideOk, Add, Dispatch, FrontMerge, MergeRequests, Move, Forced, FrontAlias, BatchCompleted, AnticCompleted;
    match step {
      case AddStep(x, rq, stats) => AddFound(s, x, rq, stats);
      case DispatchStep(e) =>
        var c, x := DispatchShape(s, e);
        if Dispatch(s, e).1 {
          MoveFound(s.(c := c), x);
        }
      case ForcedStep => ForcedLinked(s);
      case FrontMergeStep(x, n) => FrontMergeFoundIff(s, x, n);
      case MergeStep(x, y) => MergeFound(s, x, y);
      case _ =>
    }
  }

  lemma {:induction false} RunFound(s: St, steps: seq<Step>, r: St)
    requires Linked(s) && Found(s) && Runs(KeepingNext, s, steps, r)
    ensures Found(r)
    decreases |steps|
  {
    if steps != [] {
      hide Linked, Apply, Enabled, Loses, Found;
      StepLinked(s, steps[0]);
      StepFoundIff(s, steps[0]);
      RunFound(Apply(s, steps[0]), steps[1..], r);
    }
  }

  /** Wherever a run has got to without losing next_rq, forced dispatch leaves nothing behind. */
  lemma RunDrains(s: St, steps: seq<Step>, r: St)
    requires Fresh(s) && Runs(KeepingNext, s, steps, r)
    ensures Linked(r)
    ensures var f := Forced(r);
            && f.sync.tree == f.sync.fifo == [] && f.async.tree == f.async.fifo == []
            && f.out == r.out + Names(r.sync.tree) + Names(r.async.tree)
  {
    hide Runs, Forced, Names;
    FreshIsFine(s);
    RunLinked(KeepingNext, s, steps, r);
    RunFound(s, steps, r);
    hide Linked, Found;
    ForcedDrains(r);
  }

  // ---------------------------------------------------------------- what dispatch does

  /** From here on it refuses only to wait for the old batch. */
  lemma IssueRefuses(s: St, rq: nat, e: Env)
    requires Linked(s) && Queued(s, rq)
    ensures !Issue(s, rq, e).1 ==> Issue(s, rq, e).0.c.changed && s.nrDispatched != 0
    ensures !Finish(s, rq).1 ==> Finish(s, rq).0.c.changed && s.nrDispatched != 0
  {
    hide SideOk, Move;
  }

  lemma SelectRefuses(s: St, e: Env)
    requires Linked(s) && (s.sync.fifo != [] || s.async.fifo != [])
    ensures !SelectBatch(s, e).1 ==> SelectBatch(s, e).0.c.changed && s.nrDispatched != 0
  {
    hide SideOk, Issue, Finish;
    if s.sync.fifo != [] && !(s.async.fifo != [] && s.c.dir) {
      FifoQueued(s, true);
      IssueRefuses(s.(c := StartReads(Flag(s.c, s.sync.tree == []))), s.sync.fifo[0], e);
    } else {
      FifoQueued(s, false);
      IssueRefuses(s.(c := StartWrites(Flag(s.c, s.async.tree == []))), s.async.fifo[0], e);
    }
  }

  /** Work is refused only when there is none, while anticipating, or until the old batch has ended. */
  lemma DispatchRefuses(s: St, e: Env)
    requires Linked(s) && !Dispatch(s, e).1
    ensures var r := Dispatch(s, e).0;
            || (s.sync.fifo == [] && s.async.fifo == [])
            || Waiting(s.c.antic) || Waiting(r.c.antic)
            || s.c.changed || (r.c.changed && s.nrDispatched != 0)
  {
    hide SideOk, Issue, Finish, SelectBatch;
    var c := Idle(s.c, s.sync.fifo != [], s.async.fifo != []);
    var s0 := s.(c := c);
    if (s.sync.fifo != [] || s.async.fifo != []) && !Waiting(c.antic) && !c.changed {
      SelectRefuses(s0, e);
      var rq := Dir(s0, c.dir).next;
      if rq.Some? {
        NextQueued(s0, c.dir);
        IssueRefuses(s0, rq.value, e);
      }
      if s0.sync.fifo != [] {
        FifoQueued(s0, true);
        IssueRefuses(s0, s0.sync.fifo[0], e);
      }
    }
  }

  lemma MoveOut(s: St, x: nat)
    requires Linked(s) && Queued(s, x)
    ensures Move(s, x).out == s.out + {x} && Move(s, x).c.dir == s.c.dir
  {
    hide SideMove, SideOk;
  }

  lemma IssueTakes(s: St, rq: nat, e: Env)
    requires Linked(s) && Queued(s, rq) && !e.fifoUpAgain && Issue(s, rq, e).1
    ensures Issue(s, rq, e).0.out == s.out + {rq} && Issue(s, rq, e).0.c.dir == s.c.dir
  {
    hide SideOk, Move;
    MoveOut(s, rq);
    var c := Flag(s.c, s.c.newBatch);
    MoveOut(s.(c := c.(newBatch := c.newBatch || c.dir, changed := false)), rq);
  }

  lemma SelectTakes(s: St, e: Env)
    requires Linked(s) && !e.fifoUpAgain && SelectBatch(s, e).1 && (s.sync.fifo != [] || s.async.fifo != [])
    ensures var r := SelectBatch(s, e).0; Dir(s, r.c.dir).fifo != [] && r.out == s.out + {Dir(s, r.c.dir).fifo[0]}
    ensures s.sync.fifo != [] && s.async.fifo != [] ==> SelectBatch(s, e).0.c.dir != s.c.dir
  {
    hide SideOk, Issue;
    if s.sync.fifo != [] && !(s.async.fifo != [] && s.c.dir) {
      FifoQueued(s, true);
      IssueTakes(s.(c := StartReads(Flag(s.c, s.sync.tree == []))), s.sync.fifo[0], e);
    } else {
      FifoQueued(s, false);
      IssueTakes(s.(c := StartWrites(Flag(s.c, s.async.tree == []))), s.async.fifo[0], e);
    }
  }

  /**
   Unless a FIFO has expired, a batch that goes on is served in cache order, and a new batch starts
   with the oldest request of its direction.
   */
  lemma DispatchTakes(s: St, e: Env)
    requires Linked(s) && !e.fifoUp && !e.fifoUpAgain && Dispatch(s, e).1
    ensures var r := Dispatch(s, e).0;
            if r.c.dir == s.c.dir && Dir(s, s.c.dir).next.Some? then r.out == s.out + {Dir(s, s.c.dir).next.value}
            else Dir(s, r.c.dir).fifo != [] && r.out == s.out + {Dir(s, r.c.dir).fifo[0]}
  {
    hide SideOk, Issue, Finish, SelectBatch;
    var c := Idle(s.c, s.sync.fifo != [], s.async.fifo != []);
    var s0 := s.(c := c);
    var rq := Dir(s0, c.dir).next;
    if s.sync.fifo != [] && s.async.fifo != [] && BatchExpired(c, e) {
      SelectTakes(s0, e);
    } else if rq.Some? {
      NextQueued(s0, c.dir);
      IssueTakes(s0, rq.value, e);
    } else {
      SelectTakes(s0, e);
    }
  }
}
