/** elv_dispatch_sort of block/elevator.c: the one-way elevator order of the dispatch queue. */
module DispatchSort {
  import opened SortList

  /** barrier: REQ_SOFTBARRIER or REQ_HARDBARRIER; started: REQ_STARTED. */
  datatype Item = Item(id: nat, sector: nat, nr: nat, write: bool, discard: bool, barrier: bool, started: bool) {
    function End(): nat { sector + nr }
  }

  predicate Stop(x: Item) { x.barrier || x.started }

  /** The walk cannot pass pos. */
  predicate Blocks(rq: Item, pos: Item) {
    rq.discard != pos.discard || rq.write != pos.write || Stop(pos)
  }

  /** Sectors from the boundary up come first, ascending, then those below it, ascending. */
  predicate Less(boundary: nat, a: nat, b: nat) {
    if a >= boundary && b < boundary then true
    else if a < boundary && b >= boundary then false
    else a < b
  }

  predicate Ordered(boundary: nat, l: seq<Item>) {
    forall i, j | 0 <= i < j < |l| :: !Less(boundary, l[j].sector, l[i].sector)
  }

  /** The longest suffix an item like rq can walk over. */
  function TailRun(rq: Item, l: seq<Item>): seq<Item> {
    if l == [] || Blocks(rq, l[|l| - 1]) then [] else TailRun(rq, l[..|l| - 1]) + [l[|l| - 1]]
  }

  /** Where rq goes: behind the last item that blocks it or is not greater. */
  ghost predicate Place(boundary: nat, l: seq<Item>, rq: Item, p: nat) {
    && p <= |l|
    && (forall i | p <= i < |l| :: !Blocks(rq, l[i]) && Less(boundary, rq.sector, l[i].sector))
    && (p > 0 ==> Blocks(rq, l[p - 1]) || !Less(boundary, rq.sector, l[p - 1].sector))
  }

  lemma PlaceIsUnique(boundary: nat, l: seq<Item>, rq: Item, p: nat, p': nat)
    requires Place(boundary, l, rq, p) && Place(boundary, l, rq, p')
    ensures p == p'
  {
  }

  /** Where the walk back from the tail ends. */
  function PlaceOf(boundary: nat, l: seq<Item>, rq: Item): (p: nat)
    ensures Place(boundary, l, rq, p)
  {
    if l == [] || Blocks(rq, l[|l| - 1]) || !Less(boundary, rq.sector, l[|l| - 1].sector) then |l|
    else
      var p := PlaceOf(boundary, l[..|l| - 1], rq);
      assert p > 0 ==> l[..|l| - 1][p - 1] == l[p - 1];
      assert forall i | p <= i < |l| - 1 :: l[i] == l[..|l| - 1][i];
      p
  }

  /**
   A request is put before others only if they are of its direction and class, have not been started, are no barriers, and
   come after it in a sweep up from the boundary; and it stops at the first that is not so.
   */
  lemma PassesOnly(boundary: nat, l: seq<Item>, rq: Item)
    ensures var p := PlaceOf(boundary, l, rq);
            && (forall i | p <= i < |l| ::
                  && l[i].write == rq.write && l[i].discard == rq.discard && !l[i].barrier && !l[i].started
                  && if rq.sector >= boundary then l[i].sector > rq.sector || l[i].sector < boundary
                     else rq.sector < l[i].sector < boundary)
            && (p > 0 ==>
                  || l[p - 1].write != rq.write || l[p - 1].discard != rq.discard || l[p - 1].barrier || l[p - 1].started
                  || if l[p - 1].sector >= boundary then rq.sector >= l[p - 1].sector || rq.sector < boundary
                     else l[p - 1].sector <= rq.sector < boundary)
  {
    var p := PlaceOf(boundary, l, rq);
    assert Place(boundary, l, rq, p);
  }

  /** The queue with rq sorted in. */
  function Inserted(boundary: nat, l: seq<Item>, rq: Item): seq<Item> {
    var p := PlaceOf(boundary, l, rq);
    l[..p] + [rq] + l[p..]
  }

  predicate Passable(rq: Item, run: seq<Item>) {
    forall i | 0 <= i < |run| :: !Blocks(rq, run[i])
  }

  predicate Stops(rq: Item, pre: seq<Item>) {
    pre == [] || Blocks(rq, pre[|pre| - 1])
  }

  lemma TailRunSnoc(rq: Item, l: seq<Item>, x: Item)
    ensures TailRun(rq, l + [x]) == if Blocks(rq, x) then [] else TailRun(rq, l) + [x]
  {
    assert (l + [x])[..|l|] == l;
  }

  /** A suffix without blockers behind a blocker is the tail run. */
  lemma {:induction false} RunIs(rq: Item, pre: seq<Item>, run: seq<Item>)
    requires Stops(rq, pre) && Passable(rq, run)
    ensures TailRun(rq, pre + run) == run
  {
    if run == [] {
      assert pre + run == pre;
    } else {
      hide TailRun;
      var init, x := run[..|run| - 1], run[|run| - 1];
      RunIs(rq, pre, init);
      assert run == init + [x];
      assert pre + run == (pre + init) + [x];
      TailRunSnoc(rq, pre + init, x);
    }
  }

  lemma {:induction false} Split(rq: Item, l: seq<Item>) returns (pre: seq<Item>, run: seq<Item>)
    ensures run == TailRun(rq, l) && l == pre + run && Stops(rq, pre) && Passable(rq, run)
  {
    if l == [] || Blocks(rq, l[|l| - 1]) {
      pre, run := l, [];
    } else {
      var p, r := Split(rq, l[..|l| - 1]);
      pre, run := p, r + [l[|l| - 1]];
      assert l == l[..|l| - 1] + [l[|l| - 1]];
    }
  }

  /** An item fits into an ordered sequence behind those not greater and before the greater ones. */
  lemma SlotsIn(boundary: nat, run: seq<Item>, rq: Item, k: nat)
    requires Ordered(boundary, run) && k <= |run|
    requires k > 0 ==> !Less(boundary, rq.sector, run[k - 1].sector)
    requires forall i | k <= i < |run| :: Less(boundary, rq.sector, run[i].sector)
    ensures Ordered(boundary, run[..k] + [rq] + run[k..])
  {
    var r := run[..k] + [rq] + run[k..];
    forall i | 0 <= i < k ensures !Less(boundary, rq.sector, run[i].sector) {
      assert i < k - 1 ==> !Less(boundary, run[k - 1].sector, run[i].sector);
    }
    forall i | 0 <= i < |r| ensures r[i] == if i < k then run[i] else if i == k then rq else run[i - 1] {}
  }

  lemma InsertBehind(pre: seq<Item>, run: seq<Item>, rq: Item, k: nat)
    requires k <= |run|
    ensures (pre + run)[..|pre| + k] + [rq] + (pre + run)[|pre| + k..] == pre + (run[..k] + [rq] + run[k..])
  {
  }

  /** What Place says of the run alone. */
  lemma PlaceInRun(boundary: nat, pre: seq<Item>, run: seq<Item>, rq: Item, p: nat)
    requires Place(boundary, pre + run, rq, p) && Stops(rq, pre) && Passable(rq, run)
    ensures |pre| <= p <= |pre| + |run|
    ensures p > |pre| ==> !Less(boundary, rq.sector, run[p - |pre| - 1].sector)
    ensures forall i | p - |pre| <= i < |run| :: Less(boundary, rq.sector, run[i].sector)
  {
    var l := pre + run;
    hide Less;
    assert pre != [] ==> l[|pre| - 1] == pre[|pre| - 1];
    assert p > |pre| ==> l[p - 1] == run[p - |pre| - 1];
    forall i | p - |pre| <= i < |run| && i >= 0 ensures Less(boundary, rq.sector, run[i].sector) {
      assert l[|pre| + i] == run[i];
    }
  }

  /** rq comes to stand within the tail run it could walk over, which is in order with it as it was without. */
  lemma TailStaysOrdered(boundary: nat, l: seq<Item>, rq: Item, p: nat)
    requires Place(boundary, l, rq, p) && !Stop(rq) && Ordered(boundary, TailRun(rq, l))
    ensures var l' := l[..p] + [rq] + l[p..];
            && |TailRun(rq, l')| == |TailRun(rq, l)| + 1
            && Ordered(boundary, TailRun(rq, l'))
  {
    hide TailRun, Less, Ordered, Place;
    var pre, run := Split(rq, l);
    PlaceInRun(boundary, pre, run, rq, p);
    var k := p - |pre|;
    InsertBehind(pre, run, rq, k);
    var longer := run[..k] + [rq] + run[k..];
    assert Passable(rq, longer);
    RunIs(rq, pre, longer);
    SlotsIn(boundary, run, rq, k);
  }

  /** Whatever item comes next, the part of the queue it can walk over is in order. */
  ghost predicate TailsOrdered(boundary: nat, l: seq<Item>) {
    forall rq :: Ordered(boundary, TailRun(rq, l))
  }

  /** elv_dispatch_sort keeps every tail run in order. */
  lemma SortKeepsTails(boundary: nat, l: seq<Item>, rq: Item, p: nat)
    requires Place(boundary, l, rq, p) && !Stop(rq) && TailsOrdered(boundary, l)
    ensures TailsOrdered(boundary, l[..p] + [rq] + l[p..])
  {
    hide Less, Ordered;
    var l' := l[..p] + [rq] + l[p..];
    TailStaysOrdered(boundary, l, rq, p);
    LastLikeRq(boundary, l, rq, p);
    forall r ensures Ordered(boundary, TailRun(r, l')) {
      if r.write == rq.write && r.discard == rq.discard {
        SameRun(r, rq, l');
      } else {
        NothingToWalk(boundary, r, l');
      }
    }
  }

  lemma LastLikeRq(boundary: nat, l: seq<Item>, rq: Item, p: nat)
    requires Place(boundary, l, rq, p)
    ensures var l' := l[..p] + [rq] + l[p..]; l'[|l'| - 1].write == rq.write && l'[|l'| - 1].discard == rq.discard
  {
    assert p < |l| ==> !Blocks(rq, l[|l| - 1]);
  }

  lemma NothingToWalk(boundary: nat, r: Item, l: seq<Item>)
    requires l != [] && Blocks(r, l[|l| - 1])
    ensures TailRun(r, l) == [] && Ordered(boundary, TailRun(r, l))
  {
  }

  lemma {:induction false} SameRun(a: Item, b: Item, l: seq<Item>)
    requires a.write == b.write && a.discard == b.discard
    ensures TailRun(a, l) == TailRun(b, l)
  {
    if l != [] {
      SameRun(a, b, l[..|l| - 1]);
    }
  }

  /** A barrier at the tail, which also moves the boundary, leaves nothing to walk over. */
  lemma BarrierKeepsTails(boundary: nat, l: seq<Item>, rq: Item)
    requires Stop(rq)
    ensures TailsOrdered(boundary, l + [rq])
  {
    forall r ensures Ordered(boundary, TailRun(r, l + [rq])) {
      NothingToWalk(boundary, r, l + [rq]);
    }
  }

  // ------------------------------------------------------------------ the tail in one piece

  /** The only tail run that is not empty: that of an item like the last one. */
  function TailOf(l: seq<Item>): seq<Item> {
    if l == [] then [] else TailRun(l[|l| - 1], l)
  }

  lemma TailsOrderedIff(boundary: nat, l: seq<Item>)
    ensures TailsOrdered(boundary, l) <==> Ordered(boundary, TailOf(l))
  {
    hide TailRun, Less, Ordered;
    if l == [] {
      forall rq ensures TailRun(rq, l) == [] {
        RunIs(rq, [], []);
        assert [] + [] == l;
      }
      EmptyIsOrdered(boundary);
    } else {
      var x := l[|l| - 1];
      if Ordered(boundary, TailOf(l)) {
        forall r ensures Ordered(boundary, TailRun(r, l)) {
          if r.write == x.write && r.discard == x.discard {
            SameRun(r, x, l);
          } else {
            NothingToWalk(boundary, r, l);
          }
        }
      }
    }
  }

  lemma EmptyIsOrdered(boundary: nat)
    ensures Ordered(boundary, [])
  {
  }

  /** What a tail run is made of. */
  lemma TailParts(l: seq<Item>) returns (pre: seq<Item>)
    ensures l == pre + TailOf(l) && forall i | 0 <= i < |TailOf(l)| :: !Stop(TailOf(l)[i])
    ensures l != [] ==> Stops(l[|l| - 1], pre) && Passable(l[|l| - 1], TailOf(l))
  {
    if l == [] {
      pre := [];
    } else {
      var run;
      pre, run := Split(l[|l| - 1], l);
    }
  }

  lemma TailIs(pre: seq<Item>, run: seq<Item>)
    requires pre + run != [] && Stops((pre + run)[|pre + run| - 1], pre) && Passable((pre + run)[|pre + run| - 1], run)
    ensures TailOf(pre + run) == run
  {
    RunIs((pre + run)[|pre + run| - 1], pre, run);
  }

  /** Items in front change nothing if a stop stands behind them. */
  lemma TailBehindStop(pre: seq<Item>, x: Item, l: seq<Item>)
    requires Stop(x)
    ensures TailOf(pre + [x] + l) == TailOf(l)
  {
    hide TailRun, TailOf;
    var p := TailParts(l);
    var run := TailOf(l);
    assert pre + [x] + l == (pre + [x] + p) + run;
    if l == [] {
      assert (pre + [x])[|pre|] == x;
      TailIs(pre + [x], []);
      assert pre + [x] + [] == pre + [x];
      TailOfNone();
    } else {
      var q := pre + [x] + p;
      assert (q + run)[|q + run| - 1] == l[|l| - 1];
      assert q[|q| - 1] == if p == [] then x else p[|p| - 1];
      TailIs(q, run);
    }
  }

  lemma TailOfNone()
    ensures TailOf([]) == []
  {
  }

  lemma SuffixOrdered(boundary: nat, l: seq<Item>, k: nat)
    requires Ordered(boundary, l) && k <= |l|
    ensures Ordered(boundary, l[k..])
  {
  }

  /** A shorter queue has no longer tail. */
  lemma TailOfSuffix(boundary: nat, pre: seq<Item>, l: seq<Item>)
    requires Ordered(boundary, TailOf(pre + l))
    ensures Ordered(boundary, TailOf(l))
  {
    hide TailRun, TailOf, Less, Ordered;
    if l == [] {
      TailOfNone();
      EmptyIsOrdered(boundary);
    } else {
      var p := TailParts(l);
      var q := TailParts(pre + l);
      var run, longer := TailOf(l), TailOf(pre + l);
      assert (pre + l)[|pre + l| - 1] == l[|l| - 1];
      assert pre + l == (pre + p) + run;
      if p != [] {
        assert (pre + p)[|pre + p| - 1] == p[|p| - 1];
        TailIs(pre + p, run);
      } else {
        LongerTail(pre, run, q, longer);
        SuffixOrdered(boundary, longer, |longer| - |run|);
      }
    }
  }

  /** The run l reaches at least as far to the front behind pre. */
  lemma LongerTail(pre: seq<Item>, run: seq<Item>, q: seq<Item>, longer: seq<Item>)
    requires run != [] && pre + run == q + longer
    requires Stops(run[|run| - 1], q) && Passable(run[|run| - 1], run)
    ensures |run| <= |longer| && longer[|longer| - |run|..] == run
  {
    assert forall i | 0 <= i < |q| :: q[i] == (pre + run)[i];
    assert longer[|longer| - |run|..] == (q + longer)[|pre|..];
  }

  // ---------------------------------------------------------------- moving the boundary

  /** Going up from a, around the end of the disk if need be, boundary b is met before or at c. */
  predicate Between(a: nat, c: nat, b: nat) {
    if a <= c then a < b <= c else a < b || b <= c
  }

  /** A run in order for one boundary is in order for another. */
  predicate Allows(run: seq<Item>, boundary: nat) {
    run == [] || !Between(run[0].sector, run[|run| - 1].sector, boundary)
  }

  lemma AllowedIsOrdered(boundary: nat, boundary': nat, run: seq<Item>)
    requires Ordered(boundary, run) && Allows(run, boundary')
    ensures Ordered(boundary', run)
  {
    forall i, j | 0 <= i < j < |run| ensures !Less(boundary', run[j].sector, run[i].sector) {
      var n := |run| - 1;
      assert !Less(boundary, run[n].sector, run[0].sector);
      assert i > 0 ==> !Less(boundary, run[i].sector, run[0].sector);
      assert j < n ==> !Less(boundary, run[n].sector, run[j].sector);
    }
  }

  /** The boundary may be moved exactly if it does not come to lie within the run. */
  lemma MovedIff(boundary: nat, boundary': nat, run: seq<Item>)
    requires Ordered(boundary, run)
    ensures Ordered(boundary', run) <==> Allows(run, boundary')
  {
    if Allows(run, boundary') {
      AllowedIsOrdered(boundary, boundary', run);
    } else {
      assert !Less(boundary, run[|run| - 1].sector, run[0].sector) || |run| == 1;
      assert Less(boundary', run[|run| - 1].sector, run[0].sector);
    }
  }

  // ------------------------------------------------------------------------------- runs

  /** queue_head, end_sector and boundary_rq. */
  datatype St = St(queue: seq<Item>, end: nat, boundary: Option<nat>)

  /** How a scheduler hands a request over while it is drained: CFQ sorts it in, deadline puts it at the tail. */
  datatype Handed = SortedIn(rq: Item) | AtTail(rq: Item)

  datatype Step =
    | SortStep(rq: Item)                                      // elv_dispatch_sort
    | TailStep(rq: Item)                                      // elv_dispatch_add_tail
    | FrontStep(rq: Item, marks: bool)                        // ELEVATOR_INSERT_FRONT
    | BackStep(rq: Item, drained: seq<Handed>, marks: bool)   // ELEVATOR_INSERT_BACK, with the drain before it
    | RequeueStep(rq: Item, p: nat)                           // ELEVATOR_INSERT_REQUEUE
    | NextStep                                                // elv_next_request sees the head
    | DequeueStep(p: nat)                                     // elv_dequeue_request

  /** What was already handed out stands behind stops only. */
  predicate StartedFirst(l: seq<Item>) {
    forall i, j | 0 <= i < j < |l| && l[j].started :: Stop(l[i])
  }

  predicate Enabled(s: St, step: Step) {
    match step
    case SortStep(rq) => !Stop(rq)
    case TailStep(rq) => !Stop(rq)
    case FrontStep(rq, _) => !rq.started
    case BackStep(rq, drained, _) => !rq.started && forall i | 0 <= i < |drained| :: !Stop(drained[i].rq)
    case RequeueStep(rq, p) => p <= |s.queue| && !rq.started
    case NextStep => s.queue != []
    case DequeueStep(p) => p < |s.queue| && (p == 0 || s.queue[p].started)
  }

  /** marks: a barrier that is a filesystem or discard request becomes the scheduling boundary. */
  function Marked(s: St, rq: Item, marks: bool): St {
    if marks then s.(end := rq.End(), boundary := Some(rq.id)) else s
  }

  /** elv_next_request moves the boundary to the end of the head. */
  predicate Moves(s: St) {
    s.queue != [] && (s.boundary.None? || s.boundary.value == s.queue[0].id)
  }

  function Handover(s: St, h: Handed): St {
    match h
    case SortedIn(rq) => s.(queue := Inserted(s.end, s.queue, rq))
    case AtTail(rq) => St(s.queue + [rq], rq.End(), Some(rq.id))
  }

  function HandedAll(s: St, hs: seq<Handed>): St
    decreases |hs|
  {
    if hs == [] then s else HandedAll(Handover(s, hs[0]), hs[1..])
  }

  /** Every insertion but the sorted one sets REQ_SOFTBARRIER. */
  function Softened(rq: Item): Item { rq.(barrier := true) }

  function After(s: St, step: Step): St
    requires Enabled(s, step)
  {
    match step
    case SortStep(rq) => Handover(s, SortedIn(rq))
    case TailStep(rq) => Handover(s, AtTail(rq))
    case FrontStep(rq, marks) => Marked(s, rq, marks).(queue := [Softened(rq)] + s.queue)
    case BackStep(rq, drained, marks) =>
      var m := HandedAll(Marked(s, rq, marks), drained);
      m.(queue := m.queue + [Softened(rq)])
    case RequeueStep(rq, p) => s.(queue := s.queue[..p] + [Softened(rq)] + s.queue[p..])
    case NextStep =>
      var q := [s.queue[0].(started := true)] + s.queue[1..];
      if Moves(s) then St(q, s.queue[0].End(), None) else s.(queue := q)
    case DequeueStep(p) => s.(queue := s.queue[..p] + s.queue[p + 1..])
  }

  /** What a step must respect to leave the part that can be walked over in order. */
  predicate Respects(s: St, step: Step)
    requires Enabled(s, step)
  {
    match step
    case NextStep => Moves(s) ==> Allows(TailOf(s.queue[1..]), s.queue[0].End())
    case FrontStep(rq, marks) => marks ==> Allows(TailOf(s.queue), rq.End())
    case TailStep(rq) =>
      var run := TailRun(rq, s.queue);
      Allows(run, rq.End()) && (run != [] ==> !Less(rq.End(), rq.sector, run[|run| - 1].sector))
    case _ => true
  }

  ghost predicate InOrder(s: St) { TailsOrdered(s.end, s.queue) }

  lemma SortInOrder(s: St, rq: Item)
    requires InOrder(s) && !Stop(rq)
    ensures InOrder(After(s, SortStep(rq)))
  {
    hide PlaceOf, TailsOrdered;
    SortKeepsTails(s.end, s.queue, rq, PlaceOf(s.end, s.queue, rq));
  }

  /** Handing out the head moves end_sector to its end unless another request has been marked as the boundary, which then stays. */
  lemma NextMovesIff(s: St)
    requires s.queue != []
    ensures var r := After(s, NextStep);
            && (if s.boundary.None? || s.boundary.value == s.queue[0].id
                then r.end == s.queue[0].sector + s.queue[0].nr && r.boundary.None?
                else r.end == s.end && r.boundary == s.boundary)
            && r.queue[0].started && r.queue[1..] == s.queue[1..]
  {
  }

  lemma NextInOrderIff(s: St)
    requires InOrder(s) && s.queue != []
    ensures InOrder(After(s, NextStep)) <==> Respects(s, NextStep)
  {
    hide TailRun, TailOf, Less, Ordered, Allows, TailsOrdered;
    var h, rest := s.queue[0], s.queue[1..];
    var h' := h.(started := true);
    assert [] + [h'] + rest == [h'] + rest && [h] + rest == s.queue;
    TailsOrderedIff(s.end, s.queue);
    TailOfSuffix(s.end, [h], rest);
    TailBehindStop([], h', rest);
    TailsOrderedIff(s.end, [h'] + rest);
    TailsOrderedIff(h.End(), [h'] + rest);
    MovedIff(s.end, h.End(), TailOf(rest));
  }

  lemma FrontInOrderIff(s: St, rq: Item, marks: bool)
    requires InOrder(s) && !rq.started
    ensures InOrder(After(s, FrontStep(rq, marks))) <==> Respects(s, FrontStep(rq, marks))
  {
    hide TailRun, TailOf, Less, Ordered, Allows, TailsOrdered;
    var l := [Softened(rq)] + s.queue;
    assert [] + [Softened(rq)] + s.queue == l;
    TailsOrderedIff(s.end, s.queue);
    TailBehindStop([], Softened(rq), s.queue);
    TailsOrderedIff(s.end, l);
    TailsOrderedIff(rq.End(), l);
    MovedIff(s.end, rq.End(), TailOf(s.queue));
  }

  lemma TailInOrderIff(s: St, rq: Item)
    requires InOrder(s) && !Stop(rq)
    ensures InOrder(After(s, TailStep(rq))) <==> Respects(s, TailStep(rq))
  {
    hide TailRun, Less, Ordered, Allows, TailsOrdered;
    var l, run := s.queue + [rq], TailRun(rq, s.queue);
    TailsOrderedIff(rq.End(), l);
    assert l[|l| - 1] == rq;
    TailRunSnoc(rq, s.queue, rq);
    assert Ordered(s.end, run) by { TailRunOrdered(s.end, s.queue, rq); }
    MovedIff(s.end, rq.End(), run);
    SnocOrderedIff(rq.End(), run, rq);
  }

  lemma TailRunOrdered(boundary: nat, l: seq<Item>, rq: Item)
    requires TailsOrdered(boundary, l)
    ensures Ordered(boundary, TailRun(rq, l))
  {
  }

  lemma SnocOrderedIff(boundary: nat, run: seq<Item>, rq: Item)
    ensures Ordered(boundary, run + [rq]) <==>
            Ordered(boundary, run) && (run != [] ==> !Less(boundary, rq.sector, run[|run| - 1].sector))
  {
    var l := run + [rq];
    assert forall i | 0 <= i < |run| :: l[i] == run[i];
    if Ordered(boundary, run) && (run != [] ==> !Less(boundary, rq.sector, run[|run| - 1].sector)) {
      forall i, j | 0 <= i < j < |l| ensures !Less(boundary, l[j].sector, l[i].sector) {
        var n := |run| - 1;
        assert i < n ==> !Less(boundary, run[n].sector, run[i].sector);
      }
    } else {
      assert run != [] ==> l[|run|] == rq;
    }
  }

  lemma BackInOrder(s: St, rq: Item, drained: seq<Handed>, marks: bool)
    requires Enabled(s, BackStep(rq, drained, marks))
    ensures InOrder(After(s, BackStep(rq, drained, marks)))
  {
    hide TailsOrdered, HandedAll;
    var m := HandedAll(Marked(s, rq, marks), drained);
    BarrierKeepsTails(m.end, m.queue, Softened(rq));
  }

  lemma RequeueInOrder(s: St, rq: Item, p: nat)
    requires InOrder(s) && Enabled(s, RequeueStep(rq, p))
    ensures InOrder(After(s, RequeueStep(rq, p)))
  {
    hide TailRun, TailOf, Less, Ordered, TailsOrdered;
    var a, b := s.queue[..p], s.queue[p..];
    assert a + b == s.queue;
    TailsOrderedIff(s.end, s.queue);
    TailOfSuffix(s.end, a, b);
    TailBehindStop(a, Softened(rq), b);
    TailsOrderedIff(s.end, a + [Softened(rq)] + b);
  }

  lemma DequeueInOrder(s: St, p: nat)
    requires InOrder(s) && StartedFirst(s.queue) && Enabled(s, DequeueStep(p))
    ensures InOrder(After(s, DequeueStep(p)))
  {
    assert p < |s.queue| && (p > 0 ==> Stop(s.queue[p - 1]));
    hide TailRun, TailOf, Less, Ordered, TailsOrdered, StartedFirst, HandedAll, Handover;
    OneLess(s.end, s.queue, p);
  }

  lemma OneLess(boundary: nat, l: seq<Item>, p: nat)
    requires TailsOrdered(boundary, l) && p < |l| && (p > 0 ==> Stop(l[p - 1]))
    ensures TailsOrdered(boundary, l[..p] + l[p + 1..])
  {
    hide TailRun, TailOf, Less, Ordered, TailsOrdered;
    var a, b := l[..p], l[p + 1..];
    assert l[..p + 1] + b == l;
    TailsOrderedIff(boundary, l);
    TailOfSuffix(boundary, l[..p + 1], b);
    TailsOrderedIff(boundary, a + b);
    if p > 0 {
      BehindAStop(a, b);
    } else {
      assert a + b == b;
    }
  }

  lemma BehindAStop(a: seq<Item>, b: seq<Item>)
    requires a != [] && Stop(a[|a| - 1])
    ensures TailOf(a + b) == TailOf(b)
  {
    hide TailRun, TailOf;
    var p := |a|;
    assert a[..p - 1] + [a[p - 1]] + b == a + b;
    TailBehindStop(a[..p - 1], a[p - 1], b);
  }

  /** Every step keeps the order exactly if it respects the run. */
  lemma StepInOrderIff(s: St, step: Step)
    requires InOrder(s) && StartedFirst(s.queue) && Enabled(s, step)
    ensures InOrder(After(s, step)) <==> Respects(s, step)
  {
    hide InOrder, StartedFirst;
    match step {
      case SortStep(rq) => SortInOrder(s, rq);
      case TailStep(rq) => TailInOrderIff(s, rq);
      case FrontStep(rq, marks) => FrontInOrderIff(s, rq, marks);
      case BackStep(rq, drained, marks) => BackInOrder(s, rq, drained, marks);
      case RequeueStep(rq, p) => RequeueInOrder(s, rq, p);
      case NextStep => NextInOrderIff(s);
      case DequeueStep(p) => DequeueInOrder(s, p);
    }
  }

  lemma InsertedStartedFirst(boundary: nat, l: seq<Item>, rq: Item)
    requires StartedFirst(l) && !Stop(rq)
    ensures StartedFirst(Inserted(boundary, l, rq))
  {
    hide PlaceOf, Less;
    var p := PlaceOf(boundary, l, rq);
    var l' := Inserted(boundary, l, rq);
    assert forall i | 0 <= i < |l'| :: l'[i] == if i < p then l[i] else if i == p then rq else l[i - 1];
    assert forall i | p <= i < |l| :: !Blocks(rq, l[i]);
  }

  lemma {:induction false} HandedAllStartedFirst(s: St, hs: seq<Handed>)
    requires StartedFirst(s.queue) && forall i | 0 <= i < |hs| :: !Stop(hs[i].rq)
    ensures StartedFirst(HandedAll(s, hs).queue)
    decreases |hs|
  {
    if hs != [] {
      assert StartedFirst(Handover(s, hs[0]).queue) by {
        if hs[0].SortedIn? {
          InsertedStartedFirst(s.end, s.queue, hs[0].rq);
        }
      }
      hide StartedFirst, Handover;
      HandedAllStartedFirst(Handover(s, hs[0]), hs[1..]);
    }
  }

  lemma StepStartedFirst(s: St, step: Step)
    requires StartedFirst(s.queue) && Enabled(s, step)
    ensures StartedFirst(After(s, step).queue)
  {
    hide HandedAll, Inserted;
    match step {
      case SortStep(rq) => InsertedStartedFirst(s.end, s.queue, rq);
      case TailStep(rq) => SnocStartedFirst(s.queue, rq);
      case FrontStep(rq, marks) => SlotStartedFirst(s.queue, 0, Softened(rq));
        assert s.queue[..0] + [Softened(rq)] + s.queue[0..] == [Softened(rq)] + s.queue;
      case BackStep(rq, drained, marks) =>
        var m := HandedAll(Marked(s, rq, marks), drained);
        HandedAllStartedFirst(Marked(s, rq, marks), drained);
        SnocStartedFirst(m.queue, Softened(rq));
      case RequeueStep(rq, p) => SlotStartedFirst(s.queue, p, Softened(rq));
      case NextStep => HeadStartedFirst(s.queue);
      case DequeueStep(p) => LessStartedFirst(s.queue, p);
    }
  }

  lemma SnocStartedFirst(l: seq<Item>, rq: Item)
    requires StartedFirst(l) && !rq.started
    ensures StartedFirst(l + [rq])
  {
  }

  lemma SlotStartedFirst(l: seq<Item>, p: nat, rq: Item)
    requires StartedFirst(l) && p <= |l| && rq.barrier && !rq.started
    ensures StartedFirst(l[..p] + [rq] + l[p..])
  {
    var r := l[..p] + [rq] + l[p..];
    assert forall i | 0 <= i < |r| :: r[i] == if i < p then l[i] else if i == p then rq else l[i - 1];
  }

  lemma HeadStartedFirst(l: seq<Item>)
    requires StartedFirst(l) && l != []
    ensures StartedFirst([l[0].(started := true)] + l[1..])
  {
    var r := [l[0].(started := true)] + l[1..];
    assert forall i | 1 <= i < |r| :: r[i] == l[i];
  }

  lemma LessStartedFirst(l: seq<Item>, p: nat)
    requires StartedFirst(l) && p < |l|
    ensures StartedFirst(l[..p] + l[p + 1..])
  {
    var r := l[..p] + l[p + 1..];
    assert forall i | 0 <= i < |r| :: r[i] == if i < p then l[i] else l[i + 1];
  }

  /** elevator_init. */
  const INIT := St([], 0, None)

  ghost predicate IsRun(states: seq<St>, steps: seq<Step>) {
    && |states| == |steps| + 1 && states[0] == INIT
    && forall i | 0 <= i < |steps| :: Enabled(states[i], steps[i]) && states[i + 1] == After(states[i], steps[i])
  }

  lemma {:induction false} RunStartedFirst(states: seq<St>, steps: seq<Step>, i: nat)
    requires IsRun(states, steps) && i < |states|
    ensures StartedFirst(states[i].queue)
  {
    if i > 0 {
      hide StartedFirst;
      RunStartedFirst(states, steps, i - 1);
      StepStartedFirst(states[i - 1], steps[i - 1]);
    }
  }

  /** While every step respects the run before it, what can be walked over is in elevator order. */
  lemma {:induction false} RunKeepsTails(states: seq<St>, steps: seq<Step>, i: nat)
    requires IsRun(states, steps) && i < |states|
    requires forall j | 0 <= j < i :: Enabled(states[j], steps[j]) && Respects(states[j], steps[j])
    ensures InOrder(states[i])
  {
    if i == 0 {
      TailsOrderedIff(0, []);
    } else {
      hide StartedFirst, InOrder, After;
      RunKeepsTails(states, steps, i - 1);
      RunStartedFirst(states, steps, i - 1);
      StepInOrderIff(states[i - 1], steps[i - 1]);
    }
  }

  /** From the empty queue: every state of a run is in order exactly if every step respects the run before it. */
  lemma RunInOrderIff(states: seq<St>, steps: seq<Step>)
    requires IsRun(states, steps)
    ensures (forall i | 0 <= i < |states| :: InOrder(states[i])) <==>
            (forall i | 0 <= i < |steps| :: Enabled(states[i], steps[i]) && Respects(states[i], steps[i]))
  {
    hide InOrder, After, Respects;
    if forall i | 0 <= i < |states| :: InOrder(states[i]) {
      forall i | 0 <= i < |steps| ensures Respects(states[i], steps[i]) {
        RunStartedFirst(states, steps, i);
        StepInOrderIff(states[i], steps[i]);
        assert InOrder(states[i + 1]);
      }
    } else {
      var k :| 0 <= k < |states| && !InOrder(states[k]);
      if forall i | 0 <= i < |steps| :: Enabled(states[i], steps[i]) && Respects(states[i], steps[i]) {
        RunKeepsTails(states, steps, k);
      }
    }
  }

  /** Starting the first of a queue that is one run, none of it beginning inside the first, respects the rest. */
  lemma OneRunRespects(s: St)
    requires InOrder(s) && s.queue != [] && TailOf(s.queue) == s.queue
    requires forall i | 1 <= i < |s.queue| :: !(s.queue[0].sector <= s.queue[i].sector < s.queue[0].End())
    ensures Respects(s, NextStep)
  {
    hide TailRun, TailsOrdered;
    var h, rest := s.queue[0], s.queue[1..];
    TailsOrderedIff(s.end, s.queue);
    if rest != [] {
      OneRunRest(s.queue);
      var a, b := s.queue[1], s.queue[|s.queue| - 1];
      assert !Less(s.end, a.sector, h.sector) && !Less(s.end, b.sector, h.sector);
      assert |s.queue| > 2 ==> !Less(s.end, b.sector, a.sector);
    } else {
      TailOfNone();
    }
  }

  lemma OneRunRest(l: seq<Item>)
    requires |l| > 1 && TailOf(l) == l
    ensures TailOf(l[1..]) == l[1..]
  {
    hide TailRun, TailOf;
    var pre := TailParts(l);
    assert [] + l[1..] == l[1..];
    TailIs([], l[1..]);
  }

  /** A write is started while two reads wait behind it: its end comes to lie between them. */
  lemma StartBreaksOrder() returns (states: seq<St>, steps: seq<Step>)
    ensures IsRun(states, steps) && |steps| == 4 && steps[3] == NextStep
    ensures InOrder(states[3]) && !InOrder(states[4])
    ensures states[4].end == 108 && |states[4].queue| == 3
    ensures forall i | 0 <= i < 3 :: states[4].queue[i].sector == [100, 50, 200][i] && states[4].queue[i].write == (i == 0)
  {
    var w := Item(0, 100, 8, true, false, false, false);
    var r, q := Item(1, 50, 8, false, false, false, false), Item(2, 200, 8, false, false, false, false);
    steps := [SortStep(w), SortStep(r), SortStep(q), NextStep];
    states := [INIT, St([w], 0, None), St([w, r], 0, None), St([w, r, q], 0, None),
               St([w.(started := true), r, q], 108, None)];
    InsertedAtEnd(0, [], w);
    InsertedAtEnd(0, [w], r);
    InsertedAtEnd(0, [w, r], q);
    hide Inserted, InOrder;
    SpreadBehind(states[3]);
  }

  lemma SpreadBehind(s: St)
    requires |s.queue| == 3 && s.end == 0 && s.boundary.None? && !Stop(s.queue[1]) && !Stop(s.queue[2])
    requires s.queue[0].write && !s.queue[1].write && !s.queue[2].write && s.queue[1].discard == s.queue[2].discard
    requires s.queue[1].sector < s.queue[0].End() <= s.queue[2].sector
    ensures InOrder(s) && !InOrder(After(s, NextStep))
  {
    hide InOrder, TailRun, TailOf, After;
    var w, rest := s.queue[..1], s.queue[1..];
    assert w + rest == s.queue && [] + rest == rest;
    TailIs(w, rest);
    TailIs([], rest);
    RestInOrder(s);
    NextInOrderIff(s);
  }

  lemma RestInOrder(s: St)
    requires |s.queue| == 3 && s.end == 0 && TailOf(s.queue) == s.queue[1..] && s.queue[1].sector < s.queue[2].sector
    ensures InOrder(s)
  {
    hide TailsOrdered, TailOf;
    TailsOrderedIff(0, s.queue);
  }

  lemma InsertedAtEnd(boundary: nat, l: seq<Item>, rq: Item)
    requires l == [] || Blocks(rq, l[|l| - 1]) || !Less(boundary, rq.sector, l[|l| - 1].sector)
    ensures Inserted(boundary, l, rq) == l + [rq]
  {
  }

  class DispatchQueue {
    var queue: seq<Item>
    var endSector: nat
    var boundaryRq: Option<nat>

    ghost function State(): St
      reads this
    {
      St(queue, endSector, boundaryRq)
    }

    /** The list part of elv_dispatch_sort, walking back from the tail. */
    method Sort(rq: Item)
      requires !Stop(rq)
      modifies this`queue
      ensures State() == After(old(State()), SortStep(rq))
      ensures old(InOrder(State())) ==> InOrder(State())
    {
      hide PlaceOf, InOrder;
      var boundary, i := endSector, |queue|;
      while i > 0
        invariant 0 <= i <= |queue|
        invariant forall j | i <= j < |queue| :: !Blocks(rq, queue[j]) && Less(boundary, rq.sector, queue[j].sector)
      {
        var pos := queue[i - 1];
        if rq.discard != pos.discard {
          break;
        }
        if rq.write != pos.write {
          break;
        }
        if pos.barrier || pos.started {
          break;
        }
        if rq.sector >= boundary {
          if pos.sector < boundary {
            i := i - 1;
            continue;
          }
        } else {
          if pos.sector >= boundary {
            break;
          }
        }
        if rq.sector >= pos.sector {
          break;
        }
        i := i - 1;
      }
      assert Place(endSector, queue, rq, i);
      PlaceIsUnique(endSector, queue, rq, i, PlaceOf(endSector, queue, rq));
      ghost var was := State();
      queue := queue[..i] + [rq] + queue[i..];
      if InOrder(was) {
        SortInOrder(was, rq);
      }
    }

    /** What elv_next_request does to the head it sees and to the boundary. */
    method NextRequest() returns (rq: Item)
      requires queue != [] && InOrder(State()) && StartedFirst(queue)
      modifies this
      ensures State() == After(old(State()), NextStep)
      ensures InOrder(State()) <==> old(Respects(State(), NextStep))
      ensures rq == queue[0]
    {
      hide InOrder, Respects;
      NextInOrderIff(State());
      rq := queue[0];
      if !rq.started {
        rq := rq.(started := true);
      }
      queue := [rq] + queue[1..];
      if boundaryRq.None? || boundaryRq.value == rq.id {
        endSector := rq.End();
        boundaryRq := None;
      }
    }
  }
}
