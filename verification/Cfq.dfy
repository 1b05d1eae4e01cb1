/**
 CFQ's request bookkeeping (block/cfq-iosched.c): per-queue sorted tree, FIFO and next_rq cache,
 the service tree of busy queues, and the counters.  A queue's class is fixed while it is busy.
 */
module Cfq {
  import opened SortList
  import opened CfqService

  /** struct cfq_queue: sort_list, fifo, next_rq and queued[]. */
  datatype Queue = Queue(tree: seq<nat>, fifo: seq<nat>, next: Option<nat>, queuedSync: int, queuedAsync: int)

  /** cfq_back_max in sectors and cfq_back_penalty. */
  datatype Conf = Conf(backMax: nat, penalty: nat)

  /**
   struct cfq_data with q->nr_sorted.  all (history): the requests inside the scheduler; out
   (history): those given to the dispatch queue.
   */
  datatype St = St(
    t: Table, qs: map<nat, Queue>, v: Service, rqQueued: int, nrSorted: int, last: nat, all: set<nat>, out: seq<nat>)

  // ------------------------------------------------------------------ next_rq

  /** cfq_choose_req. */
  function Choose(t: Table, conf: Conf, last: nat, rq1: Option<nat>, rq2: Option<nat>): (r: Option<nat>)
    requires rq1.Some? ==> rq1.value in t
    requires rq2.Some? ==> rq2.value in t
    ensures r == rq1 || r == rq2
    ensures r.None? <==> rq1.None? && rq2.None?
  {
    if rq1.None? || rq1 == rq2 then rq2
    else if rq2.None? then rq1
    else
      var a, b := t[rq1.value], t[rq2.value];
      if a.sync != b.sync then if a.sync then rq1 else rq2
      else if a.meta != b.meta then if a.meta then rq1 else rq2
      else
        var wrap1 := a.sector < last && a.sector + conf.backMax < last;
        var wrap2 := b.sector < last && b.sector + conf.backMax < last;
        var d1: nat := if a.sector >= last then a.sector - last else if wrap1 then 0 else (last - a.sector) * conf.penalty;
        var d2: nat := if b.sector >= last then b.sector - last else if wrap2 then 0 else (last - b.sector) * conf.penalty;
        if wrap1 && wrap2 then if a.sector <= b.sector then rq1 else rq2
        else if wrap2 then rq1
        else if wrap1 then rq2
        else if d1 < d2 then rq1
        else if d2 < d1 then rq2
        else if a.sector >= b.sector then rq1 else rq2
  }

  /** What it costs to move the head to a sector that is ahead, or not too far behind. */
  ghost function Seek(conf: Conf, last: nat, sector: nat): int {
    if sector >= last then sector - last else (last - sector) * conf.penalty
  }

  ghost predicate FarBehind(conf: Conf, last: nat, sector: nat) {
    sector + conf.backMax < last
  }

  /** a is to be served before b. */
  ghost predicate Preferred(conf: Conf, last: nat, a: Rq, b: Rq) {
    if a.sync != b.sync then a.sync
    else if a.meta != b.meta then a.meta
    else if FarBehind(conf, last, a.sector) || FarBehind(conf, last, b.sector) then
      FarBehind(conf, last, b.sector) && (!FarBehind(conf, last, a.sector) || a.sector < b.sector)
    else
      Seek(conf, last, a.sector) < Seek(conf, last, b.sector)
      || (Seek(conf, last, a.sector) == Seek(conf, last, b.sector) && a.sector > b.sector)
  }

  /**
   cfq_choose_req prefers synchronous requests, then those for metadata, then those not too far behind the head, then the
   cheaper seek and of two equal ones the one ahead; of two too far behind, the one farthest behind.
   */
  lemma ChoosePrefers(t: Table, conf: Conf, last: nat, x: nat, y: nat)
    requires x in t && y in t && x != y
    ensures Preferred(conf, last, t[x], t[y]) ==>
              Choose(t, conf, last, Some(x), Some(y)) == Some(x) == Choose(t, conf, last, Some(y), Some(x))
    ensures t[x].sector != t[y].sector ==> Preferred(conf, last, t[x], t[y]) || Preferred(conf, last, t[y], t[x])
  {
  }

  /** And so does a choice among any number of requests at different sectors: the order is one. */
  lemma PreferredIsOrder(conf: Conf, last: nat, a: Rq, b: Rq, c: Rq)
    requires Preferred(conf, last, a, b)
    ensures !Preferred(conf, last, b, a)
    ensures Preferred(conf, last, b, c) ==> Preferred(conf, last, a, c)
  {
  }

  /** cfq_find_next_rq. */
  function FindNext(t: Table, conf: Conf, last: nat, l: seq<nat>, x: nat): Option<nat>
    requires Known(t, l) && x in l
  {
    var next := if Next(l, x).Some? then Next(l, x) else if l[0] != x then Some(l[0]) else None;
    Choose(t, conf, last, next, Prev(l, x))
  }

  /** It finds another request exactly if there is one. */
  lemma FindNextFinds(t: Table, conf: Conf, last: nat, l: seq<nat>, x: nat)
    requires Known(t, l) && Distinct(l) && x in l
    ensures var r := FindNext(t, conf, last, l, x);
            && (r.None? <==> Without(l, x) == [])
            && (r.Some? ==> r.value in Without(l, x))
  {
    var k := Index(l, x);
    if |l| > 1 {
      assert l[if k == 0 then 1 else 0] in Without(l, x);
    } else {
      assert l == [x];
    }
  }

  // ------------------------------------------------------------------ operations

  /** Of the node behind x, the first one if there is none, and the node before x, it finds the preferred one. */
  lemma FindNextPrefers(t: Table, conf: Conf, last: nat, l: seq<nat>, k: nat)
    requires Sorted(t, l) && k < |l| && |l| > 1
    ensures var r, next := FindNext(t, conf, last, l, l[k]), l[if k + 1 < |l| then k + 1 else 0];
            && r.Some? && (r.value == next || (k > 0 && r.value == l[k - 1]))
            && !Preferred(conf, last, t[next], t[r.value])
            && (k > 0 ==> !Preferred(conf, last, t[l[k - 1]], t[r.value]))
  {
    hide Preferred;
    SortedDistinct(t, l);
    IndexUnique(l, k);
    var next := l[if k + 1 < |l| then k + 1 else 0];
    NotPreferredSelf(conf, last, t[next]);
    if k > 0 {
      NotPreferredSelf(conf, last, t[l[k - 1]]);
      if next != l[k - 1] {
        ChoosePrefers(t, conf, last, next, l[k - 1]);
        ChoosePrefers(t, conf, last, l[k - 1], next);
        NotBoth(conf, last, t[next], t[l[k - 1]]);
      }
    }
  }

  lemma NotPreferredSelf(conf: Conf, last: nat, a: Rq)
    ensures !Preferred(conf, last, a, a)
  {
  }

  lemma NotBoth(conf: Conf, last: nat, a: Rq, b: Rq)
    ensures !(Preferred(conf, last, a, b) && Preferred(conf, last, b, a))
  {
  }

  function Counted(k: Queue, sync: bool, d: int): Queue {
    if sync then k.(queuedSync := k.queuedSync + d) else k.(queuedAsync := k.queuedAsync + d)
  }

  function CountOf(k: Queue, sync: bool): int {
    if sync then k.queuedSync else k.queuedAsync
  }

  /** The queue's part of cfq_remove_request. */
  function Removed(t: Table, conf: Conf, last: nat, k: Queue, x: nat): Queue
    requires Known(t, k.tree) && x in k.tree && x in t
  {
    Counted(k, t[x].sync, -1).(
      next := if k.next == Some(x) then FindNext(t, conf, last, k.tree, x) else k.next,
      fifo := Without(k.fifo, x), tree := Without(k.tree, x))
  }

  predicate Queued(s: St, x: nat) {
    x in s.t && s.t[x].ioc in s.qs && x in s.qs[s.t[x].ioc].tree && Known(s.t, s.qs[s.t[x].ioc].tree)
  }

  /** cfq_remove_request; a queue without requests leaves the service tree. */
  function RemoveRequest(s: St, conf: Conf, x: nat): St
    requires Queued(s, x)
  {
    var q := s.t[x].ioc;
    var k := Removed(s.t, conf, s.last, s.qs[q], x);
    var v := s.v.(bug := s.v.bug || CountOf(s.qs[q], s.t[x].sync) == 0);
    s.(qs := s.qs[q := k], v := if q in v.onRr && k.tree == [] then DelRr(v, q) else v,
       rqQueued := s.rqQueued - 1, all := s.all - {x})
  }

  /** cfq_dispatch_insert. */
  function DispatchInsert(s: St, conf: Conf, x: nat): St
    requires Queued(s, x)
  {
    var r := RemoveRequest(s, conf, x);
    r.(nrSorted := r.nrSorted - 1, out := r.out + [x])
  }

  // ------------------------------------------------------------------- invariants

  ghost function OfDir(t: Table, names: set<nat>, sync: bool): set<nat> {
    set x | x in names && x in t && t[x].sync == sync
  }

  ghost predicate Counts(t: Table, k: Queue, names: set<nat>) {
    k.queuedSync == |OfDir(t, names, true)| && k.queuedAsync == |OfDir(t, names, false)|
  }

  ghost function Names(l: seq<nat>): set<nat> {
    set x | x in l
  }

  /** Tree and FIFO agree, next_rq is unset exactly if they are empty, queued[] counts them. */
  ghost predicate QueueOk(t: Table, q: nat, k: Queue) {
    && Sorted(t, k.tree) && Distinct(k.fifo)
    && (forall x :: x in k.tree <==> x in k.fifo)
    && (forall x | x in k.tree :: x in t && t[x].ioc == q)
    && (k.next.None? <==> k.tree == [])
    && (k.next.Some? ==> k.next.value in k.tree)
    && Counts(t, k, Names(k.tree))
  }

  /** The same, but for x: it is counted and may be cached, but it is not in the tree. */
  ghost predicate QueueBut(t: Table, q: nat, k: Queue, x: nat) {
    && Sorted(t, k.tree) && Distinct(k.fifo)
    && (forall y | y != x :: y in k.tree <==> y in k.fifo) && x !in k.tree
    && (forall y | y in k.tree :: y in t && t[y].ioc == q)
    && (k.next.None? ==> k.tree == [])
    && (k.next.Some? ==> k.next.value in k.tree || k.next.value == x)
    && Counts(t, k, Names(k.tree) + {x})
  }

  lemma CountsLess(t: Table, k: Queue, names: set<nat>, x: nat)
    requires Counts(t, k, names) && x in names && x in t
    ensures Counts(t, Counted(k, t[x].sync, -1), names - {x}) && CountOf(k, t[x].sync) > 0
  {
    var d := t[x].sync;
    assert OfDir(t, names - {x}, d) == OfDir(t, names, d) - {x} && x in OfDir(t, names, d);
    assert OfDir(t, names - {x}, !d) == OfDir(t, names, !d);
  }

  lemma CountsMore(t: Table, k: Queue, names: set<nat>, x: nat)
    requires Counts(t, k, names) && x !in names && x in t
    ensures Counts(t, Counted(k, t[x].sync, 1), names + {x})
  {
    var d := t[x].sync;
    assert OfDir(t, names + {x}, d) == OfDir(t, names, d) + {x};
    assert OfDir(t, names + {x}, !d) == OfDir(t, names, !d);
  }

  lemma CountsFrame(t: Table, t': Table, k: Queue, k': Queue, names: set<nat>)
    requires Counts(t, k, names) && k'.queuedSync == k.queuedSync && k'.queuedAsync == k.queuedAsync
    requires forall y | y in names :: (y in t <==> y in t') && (y in t ==> t'[y].sync == t[y].sync)
    ensures Counts(t', k', names)
  {
    assert OfDir(t', names, true) == OfDir(t, names, true);
    assert OfDir(t', names, false) == OfDir(t, names, false);
  }

  lemma TakenOut(t: Table, k: Queue, x: nat)
    requires Sorted(t, k.tree) && Distinct(k.fifo) && x in k.tree
    ensures Sorted(t, Without(k.tree, x)) && Distinct(Without(k.fifo, x))
    ensures Names(Without(k.tree, x)) == Names(k.tree) - {x} && Distinct(k.tree)
  {
    WithoutSorted(t, k.tree, x);
    WithoutDistinct(k.fifo, x);
    SortedDistinct(t, k.tree);
  }

  lemma RemovedOk(t: Table, conf: Conf, last: nat, q: nat, k: Queue, x: nat)
    requires QueueOk(t, q, k) && x in k.tree
    ensures QueueOk(t, q, Removed(t, conf, last, k, x)) && CountOf(k, t[x].sync) > 0
  {
    TakenOut(t, k, x);
    FindNextFinds(t, conf, last, k.tree, x);
    CountsLess(t, k, Names(k.tree), x);
    assert k.next != Some(x) ==> k.next.value in Without(k.tree, x);
    var r := Removed(t, conf, last, k, x);
    CountsFrame(t, t, Counted(k, t[x].sync, -1), r, Names(r.tree));
    hide Counts, Sorted, Distinct, FindNext, Without;
  }

  /** The cached request after a leaves a tree that x is missing from. */
  lemma RemovedNext(t: Table, conf: Conf, last: nat, k: Queue, a: nat, x: nat)
    requires Known(t, k.tree) && Distinct(k.tree) && a in k.tree && a in t
    requires k.next.Some? && (k.next.value in k.tree || k.next.value == x)
    ensures var r := Removed(t, conf, last, k, a);
            && r.tree == Without(k.tree, a) && r.fifo == Without(k.fifo, a)
            && (r.next.None? ==> r.tree == []) && (r.next.Some? ==> r.next.value in r.tree || r.next.value == x)
  {
    FindNextFinds(t, conf, last, k.tree, a);
    hide FindNext, Without, Distinct, Known;
  }

  /** The counters after that. */
  lemma RemovedCounts(t: Table, conf: Conf, last: nat, k: Queue, a: nat, x: nat)
    requires Known(t, k.tree) && a in k.tree && x !in k.tree && a in t && Counts(t, k, Names(k.tree) + {x})
    requires Names(Without(k.tree, a)) == Names(k.tree) - {a}
    ensures var r := Removed(t, conf, last, k, a);
            Counts(t, r, Names(r.tree) + {x}) && CountOf(k, t[a].sync) > 0
  {
    var names, r := Names(k.tree), Removed(t, conf, last, k, a);
    assert a in names && x !in names && r.tree == Without(k.tree, a);
    hide Counts, FindNext, Without, Names, Known;
    CountsLess(t, k, names + {x}, a);
    OneLess(names, a, x);
    CountsFrame(t, t, Counted(k, t[a].sync, -1), r, names - {a} + {x});
  }

  lemma OneLess(names: set<nat>, a: nat, x: nat)
    requires a in names && x !in names
    ensures names - {a} + {x} == names + {x} - {a}
  {
  }

  lemma RemovedBut(t: Table, conf: Conf, last: nat, q: nat, k: Queue, a: nat, x: nat)
    requires QueueBut(t, q, k, x) && a in k.tree
    ensures QueueBut(t, q, Removed(t, conf, last, k, a), x) && CountOf(k, t[a].sync) > 0
  {
    TakenOut(t, k, a);
    RemovedNext(t, conf, last, k, a, x);
    RemovedCounts(t, conf, last, k, a, x);
    hide Counts, Sorted, Distinct, Without, Names, Removed;
  }

  /** The queue's part of the rest of cfq_add_rq_rb: x is in the tree, and next_rq is set. */
  function Filled(t: Table, conf: Conf, last: nat, k: Queue, x: nat): Queue
    requires Known(t, k.tree) && x in t && (k.next.Some? ==> k.next.value in t)
  {
    k.(tree := Insert(t, k.tree, x), next := Choose(t, conf, last, k.next, Some(x)))
  }

  /** If no queued request is preferred to the cached one, none is after an insertion. */
  lemma FilledBest(t: Table, conf: Conf, last: nat, k: Queue, x: nat)
    requires Known(t, k.tree) && x in t && x !in k.tree && k.next.Some? && k.next.value in t && k.next.value in k.tree
    requires forall y | y in k.tree :: y in t && !Preferred(conf, last, t[y], t[k.next.value])
    ensures var r := Filled(t, conf, last, k, x);
            && r.next.Some? && r.next.value in r.tree && r.next.value in t
            && forall y | y in r.tree :: y in t && !Preferred(conf, last, t[y], t[r.next.value])
  {
    hide Preferred, Choose;
    var n := k.next.value;
    ChooseIs(t, conf, last, n, x);
    NotPreferredSelf(conf, last, t[x]);
    NotBoth(conf, last, t[x], t[n]);
    forall y | y in k.tree && Preferred(conf, last, t[x], t[n]) ensures !Preferred(conf, last, t[y], t[x]) {
      if Preferred(conf, last, t[y], t[x]) {
        PreferredIsOrder(conf, last, t[y], t[x], t[n]);
      }
    }
  }

  lemma ChooseIs(t: Table, conf: Conf, last: nat, a: nat, b: nat)
    requires a in t && b in t && a != b
    ensures Choose(t, conf, last, Some(a), Some(b)) == Some(if Preferred(conf, last, t[b], t[a]) then b else a)
  {
  }

  lemma FilledOk(t: Table, conf: Conf, last: nat, q: nat, k: Queue, x: nat)
    requires QueueBut(t, q, k, x) && x in t && t[x].ioc == q && x in k.fifo && Find(t, k.tree, t[x].sector).None?
    ensures QueueOk(t, q, Filled(t, conf, last, k, x))
  {
    InsertSorted(t, k.tree, x);
    var r := Filled(t, conf, last, k, x);
    assert Names(r.tree) == Names(k.tree) + {x};
    CountsFrame(t, t, k, r, Names(r.tree));
    hide Counts, Sorted, Distinct, Choose, Insert;
  }

  /** The queues, the service tree and the counters agree, and no BUG_ON has fired. */
  ghost predicate Linked(s: St) {
    && (forall q | q in s.qs :: QueueOk(s.t, q, s.qs[q]))
    && ServiceOk(s.v) && s.v.prio.Keys == s.qs.Keys && !s.v.bug
    && (forall q :: q in s.v.onRr <==> q in s.qs && s.qs[q].tree != [])
    && Counters(s)
  }

  ghost predicate Counters(s: St) {
    && (forall x | x in s.all :: x in s.t && s.t[x].ioc in s.qs && x in s.qs[s.t[x].ioc].tree)
    && (forall q, x | q in s.qs && x in s.qs[q].tree :: x in s.all)
    && s.rqQueued == s.nrSorted == |s.all|
  }

  lemma RemoveKeepsCounters(s: St, conf: Conf, x: nat, r: St)
    requires Counters(s) && Queued(s, x) && r.t == s.t
    requires r.qs == s.qs[s.t[x].ioc := Removed(s.t, conf, s.last, s.qs[s.t[x].ioc], x)]
    requires r.all == s.all - {x} && r.rqQueued == s.rqQueued - 1 && r.nrSorted == s.nrSorted - 1
    requires forall q | q in s.qs && x in s.qs[q].tree :: q == s.t[x].ioc
    ensures Counters(r)
  {
    hide FindNext;
    assert x in s.all;
  }

  lemma OwnQueue(s: St, x: nat)
    requires Linked(s) && Queued(s, x)
    ensures var q := s.t[x].ioc;
            && QueueOk(s.t, q, s.qs[q]) && q in s.v.onRr && CountOf(s.qs[q], s.t[x].sync) > 0 && x in s.all
            && forall p | p in s.qs && x in s.qs[p].tree :: p == q
  {
    var q := s.t[x].ioc;
    assert QueueOk(s.t, q, s.qs[q]);
    RemovedOk(s.t, Conf(0, 0), 0, q, s.qs[q], x);
    forall p | p in s.qs && x in s.qs[p].tree ensures p == q {
      assert QueueOk(s.t, p, s.qs[p]);
    }
  }

  lemma RemoveFields(s: St, conf: Conf, x: nat)
    requires Queued(s, x) && s.t[x].ioc in s.v.onRr && CountOf(s.qs[s.t[x].ioc], s.t[x].sync) > 0
    ensures var q, r := s.t[x].ioc, RemoveRequest(s, conf, x);
            var k := Removed(s.t, conf, s.last, s.qs[q], x);
            && r.t == s.t && r.qs == s.qs[q := k] && r.v == (if k.tree == [] then DelRr(s.v, q) else s.v)
            && r.all == s.all - {x} && r.rqQueued == s.rqQueued - 1 && r.nrSorted == s.nrSorted && r.out == s.out
  {
    hide Removed, DelRr;
    assert s.v.(bug := s.v.bug || CountOf(s.qs[s.t[x].ioc], s.t[x].sync) == 0) == s.v;
  }

  lemma RemoveLinked(s: St, conf: Conf, x: nat, out: seq<nat>)
    requires Linked(s) && Queued(s, x)
    ensures var r := RemoveRequest(s, conf, x); Linked(r.(nrSorted := r.nrSorted - 1, out := out))
  {
    hide Removed, ServiceOk, DelRr, QueueOk, RemoveRequest;
    var q := s.t[x].ioc;
    OwnQueue(s, x);
    RemoveFields(s, conf, x);
    RemovedOk(s.t, conf, s.last, q, s.qs[q], x);
    var r := RemoveRequest(s, conf, x).(nrSorted := s.nrSorted - 1, out := out);
    RemoveKeepsCounters(s, conf, x, r);
    DelRrOk(s.v, q);
    hide Counters;
  }

  lemma DispatchLinked(s: St, conf: Conf, x: nat)
    requires Linked(s) && Queued(s, x)
    ensures var r := DispatchInsert(s, conf, x);
            Linked(r) && r.out == s.out + [x] && r.nrSorted == s.nrSorted - 1 && r.all == s.all - {x} && r.t == s.t
  {
    hide Linked, RemoveRequest, Removed, DelRr, Known, CountOf;
    OwnQueue(s, x);
    RemoveFields(s, conf, x);
    RemoveLinked(s, conf, x, s.out + [x]);
  }

  // ------------------------------------------------------- adding and repositioning

  /** Linked but for x, which is accounted for everywhere except in its queue's tree. */
  ghost predicate HoleOk(s: St, x: nat) {
    && x in s.t && s.t[x].ioc in s.qs && QueueBut(s.t, s.t[x].ioc, s.qs[s.t[x].ioc], x)
    && (forall p | p in s.qs && p != s.t[x].ioc :: QueueOk(s.t, p, s.qs[p]))
    && ServiceOk(s.v) && s.v.prio.Keys == s.qs.Keys && !s.v.bug
    && (forall p | p != s.t[x].ioc :: p in s.v.onRr <==> p in s.qs && s.qs[p].tree != [])
    && (s.qs[s.t[x].ioc].tree != [] ==> s.t[x].ioc in s.v.onRr)
    && CountersBut(s, x)
  }

  ghost predicate CountersBut(s: St, x: nat) {
    && (forall y | y in s.all :: y in s.t && s.t[y].ioc in s.qs && (y == x || y in s.qs[s.t[y].ioc].tree))
    && (forall q, y | q in s.qs && y in s.qs[q].tree :: y in s.all)
    && x in s.all && s.rqQueued == s.nrSorted == |s.all|
  }

  lemma HoleKnown(s: St, x: nat)
    requires HoleOk(s, x)
    ensures x in s.t && s.t[x].ioc in s.qs
    ensures var k := s.qs[s.t[x].ioc];
            && Known(s.t, k.tree) && (forall y | y in k.tree :: s.t[y].ioc == s.t[x].ioc)
            && (k.next.Some? ==> k.next.value in s.t)
    ensures s.t[x].ioc in s.v.prio && Listed(s.v.prio, s.v.order)
  {
    hide Sorted, Distinct, Less;
  }

  /** In the hole, an alias is dispatched; its queue may leave the service tree. */
  lemma AliasFields(s: St, conf: Conf, x: nat, a: nat)
    requires HoleOk(s, x) && a in s.qs[s.t[x].ioc].tree
    ensures var q := s.t[x].ioc;
            && Queued(s, a) && s.t[a].ioc == q && a != x && q in s.v.onRr && CountOf(s.qs[q], s.t[a].sync) > 0
            && a in s.all && (forall p | p in s.qs && a in s.qs[p].tree :: p == q)
            && QueueBut(s.t, q, Removed(s.t, conf, s.last, s.qs[q], a), x)
  {
    var q := s.t[x].ioc;
    RemovedBut(s.t, conf, s.last, q, s.qs[q], a, x);
    forall p | p in s.qs && a in s.qs[p].tree ensures p == q {
      assert p != q ==> QueueOk(s.t, p, s.qs[p]);
    }
    hide Removed;
  }

  lemma AliasCounters(s: St, conf: Conf, x: nat, a: nat, r: St)
    requires CountersBut(s, x) && Queued(s, a) && a != x && r.t == s.t
    requires r.qs == s.qs[s.t[a].ioc := Removed(s.t, conf, s.last, s.qs[s.t[a].ioc], a)]
    requires r.all == s.all - {a} && r.rqQueued == s.rqQueued - 1 && r.nrSorted == s.nrSorted - 1 && a in s.all
    requires forall q | q in s.qs && a in s.qs[q].tree :: q == s.t[a].ioc
    ensures CountersBut(r, x)
  {
    hide FindNext;
  }

  lemma AliasHole(s: St, conf: Conf, x: nat, a: nat)
    requires HoleOk(s, x) && a in s.qs[s.t[x].ioc].tree
    ensures Queued(s, a)
    ensures var q, r := s.t[x].ioc, DispatchInsert(s, conf, a);
            HoleOk(r, x) && r.t == s.t && r.qs[q] == Removed(s.t, conf, s.last, s.qs[q], a)
            && r.last == s.last
  {
    hide Removed, ServiceOk, DelRr, QueueOk, QueueBut, RemoveRequest, Known;
    var q := s.t[x].ioc;
    AliasFields(s, conf, x, a);
    RemoveFields(s, conf, a);
    var r := DispatchInsert(s, conf, a);
    AliasCounters(s, conf, x, a, r);
    DelRrOk(s.v, q);
    LastStays(s, conf, a);
    hide CountersBut;
  }

  lemma LastStays(s: St, conf: Conf, a: nat)
    requires Queued(s, a)
    ensures DispatchInsert(s, conf, a).last == s.last
  {
    hide Removed, DelRr;
  }

  /** The loop of cfq_add_rq_rb: a request already at the sector is dispatched. */
  function MoveAlias(s: St, conf: Conf, x: nat): St
    requires HoleOk(s, x)
  {
    HoleKnown(s, x);
    match Find(s.t, s.qs[s.t[x].ioc].tree, s.t[x].sector)
    case None => s
    case Some(alias) =>
      AliasHole(s, conf, x, alias);
      DispatchInsert(s, conf, alias)
  }

  lemma MoveAliasHole(s: St, conf: Conf, x: nat)
    requires HoleOk(s, x)
    ensures var q, r := s.t[x].ioc, MoveAlias(s, conf, x);
            && HoleOk(r, x) && r.t == s.t && r.last == s.last
            && Find(r.t, r.qs[q].tree, r.t[x].sector).None?
            && (x in r.qs[q].fifo <==> x in s.qs[q].fifo)
  {
    hide HoleOk, DispatchInsert;
    HoleKnown(s, x);
    var q := s.t[x].ioc;
    match Find(s.t, s.qs[q].tree, s.t[x].sector) {
      case None =>
      case Some(a) =>
        AliasHole(s, conf, x, a);
        HoleSorted(s, x);
        OneAtSector(s.t, s.qs[q].tree, a);
        assert a != x;
    }
  }

  lemma HoleSorted(s: St, x: nat)
    requires HoleOk(s, x)
    ensures Sorted(s.t, s.qs[s.t[x].ioc].tree) && x !in s.qs[s.t[x].ioc].tree
  {
  }

  /** cfq_add_rq_rb, with queued[] already incremented. */
  function AddRb(s: St, conf: Conf, x: nat, now: Times): St
    requires HoleOk(s, x)
  {
    MoveAliasHole(s, conf, x);
    var q, s1 := s.t[x].ioc, MoveAlias(s, conf, x);
    HoleKnown(s1, x);
    var v := if q in s1.v.onRr then s1.v else AddRr(s1.v, q, now);
    var k := Filled(s1.t, conf, s1.last, s1.qs[q], x);
    s1.(qs := s1.qs[q := k], v := v.(bug := v.bug || k.next.None?))
  }

  lemma FillCounters(s: St, x: nat, r: St)
    requires CountersBut(s, x) && x in s.t && s.t[x].ioc in s.qs && r.t == s.t && r.all == s.all
    requires r.rqQueued == s.rqQueued && r.nrSorted == s.nrSorted
    requires r.qs.Keys == s.qs.Keys && forall q | q in s.qs && q != s.t[x].ioc :: r.qs[q] == s.qs[q]
    requires forall y :: y in r.qs[s.t[x].ioc].tree <==> y in s.qs[s.t[x].ioc].tree || y == x
    ensures Counters(r)
  {
  }

  /** The hole is filled: x has a place in the FIFO as well. */
  lemma FillLinked(s: St, x: nat, r: St, now: Times)
    requires HoleOk(s, x) && s.t[x].ioc in s.v.prio && Listed(s.v.prio, s.v.order)
    requires r.t == s.t && r.all == s.all && r.rqQueued == s.rqQueued && r.nrSorted == s.nrSorted
    requires r.qs.Keys == s.qs.Keys && forall q | q in s.qs && q != s.t[x].ioc :: r.qs[q] == s.qs[q]
    requires forall y :: y in r.qs[s.t[x].ioc].tree <==> y in s.qs[s.t[x].ioc].tree || y == x
    requires QueueOk(s.t, s.t[x].ioc, r.qs[s.t[x].ioc])
    requires r.v == if s.t[x].ioc in s.v.onRr then s.v else AddRr(s.v, s.t[x].ioc, now)
    ensures Linked(r)
  {
    hide QueueOk, QueueBut, ServiceOk, AddRr, Listed;
    var q := s.t[x].ioc;
    FillCounters(s, x, r);
    if q !in s.v.onRr {
      AddRrOk(s.v, q, now);
      PrioStays(s.v, q, false, now);
    }
    assert x in r.qs[q].tree;
    hide Counters, CountersBut;
  }

  lemma FilledNames(t: Table, conf: Conf, last: nat, k: Queue, x: nat)
    requires Known(t, k.tree) && x in t && (k.next.Some? ==> k.next.value in t)
    ensures forall y :: y in Filled(t, conf, last, k, x).tree <==> y in k.tree || y == x
    ensures Filled(t, conf, last, k, x).next.Some? && Filled(t, conf, last, k, x).fifo == k.fifo
  {
  }

  lemma AddRbLinked(s: St, conf: Conf, x: nat, now: Times, tail: seq<nat>)
    requires HoleOk(s, x) && tail == (if x in s.qs[s.t[x].ioc].fifo then [] else [x])
    ensures var q, r := s.t[x].ioc, AddRb(s, conf, x, now);
            && q in r.qs && Linked(r.(qs := r.qs[q := r.qs[q].(fifo := r.qs[q].fifo + tail)]))
            && r.t == s.t
  {
    hide HoleOk, Filled, MoveAlias, ServiceOk, AddRr, QueueBut, QueueOk, Known, Listed, Find, Linked;
    HoleKnown(s, x);
    var q, s1 := s.t[x].ioc, MoveAlias(s, conf, x);
    MoveAliasHole(s, conf, x);
    HoleKnown(s1, x);
    HoleQueue(s1, x);
    var k := s1.qs[q];
    var k1 := k.(fifo := k.fifo + tail);
    assert tail == [] ==> k.fifo + tail == k.fifo;
    TailedBut(s1.t, q, k, x, tail);
    FilledOk(s1.t, conf, s1.last, q, k1, x);
    FilledTail(s1.t, conf, s1.last, k, x, tail);
    FilledNames(s1.t, conf, s1.last, k, x);
    var r := AddRb(s, conf, x, now);
    var r1 := r.(qs := r.qs[q := r.qs[q].(fifo := r.qs[q].fifo + tail)]);
    var v := if q in s1.v.onRr then s1.v else AddRr(s1.v, q, now);
    assert v.(bug := v.bug || false) == v;
    FillLinked(s1, x, r1, now);
  }

  lemma HoleQueue(s: St, x: nat)
    requires HoleOk(s, x)
    ensures QueueBut(s.t, s.t[x].ioc, s.qs[s.t[x].ioc], x)
  {
  }

  lemma TailedBut(t: Table, q: nat, k: Queue, x: nat, tail: seq<nat>)
    requires QueueBut(t, q, k, x) && tail == (if x in k.fifo then [] else [x])
    ensures QueueBut(t, q, k.(fifo := k.fifo + tail), x) && x in k.fifo + tail
  {
    CountsFrame(t, t, k, k.(fifo := k.fifo + tail), Names(k.tree) + {x});
    hide Sorted, Counts;
  }

  lemma FilledTail(t: Table, conf: Conf, last: nat, k: Queue, x: nat, tail: seq<nat>)
    requires Known(t, k.tree) && x in t && (k.next.Some? ==> k.next.value in t)
    ensures Filled(t, conf, last, k.(fifo := k.fifo + tail), x) ==
            Filled(t, conf, last, k, x).(fifo := k.fifo + tail)
  {
  }

  lemma QueueFrame(t: Table, t': Table, q: nat, k: Queue)
    requires QueueOk(t, q, k)
    requires forall x | x in k.tree ::
               x in t' && t'[x].sector == t[x].sector && t'[x].ioc == t[x].ioc && t'[x].sync == t[x].sync
    ensures QueueOk(t', q, k)
  {
    SortedFrame(t, t', k.tree);
    CountsFrame(t, t', k, k, Names(k.tree));
    hide Sorted, Counts, Distinct;
  }

  /** A new request is counted in, before it is queued. */
  function CountIn(s: St, x: nat, rq: Rq): St
    requires rq.ioc in s.qs
  {
    s.(t := s.t[x := rq], qs := s.qs[rq.ioc := Counted(s.qs[rq.ioc], rq.sync, 1)],
       rqQueued := s.rqQueued + 1, nrSorted := s.nrSorted + 1, all := s.all + {x})
  }

  lemma CountInQueue(t: Table, q: nat, k: Queue, x: nat, rq: Rq)
    requires QueueOk(t, q, k) && x !in t && rq.ioc == q
    ensures QueueBut(t[x := rq], q, Counted(k, rq.sync, 1), x) && x !in k.fifo && x !in k.tree
  {
    var t' := t[x := rq];
    SortedFrame(t, t', k.tree);
    CountsFrame(t, t', k, k, Names(k.tree));
    CountsMore(t', k, Names(k.tree), x);
    hide Sorted, Counts, Distinct;
  }

  /** What happens to requests of queue q does not concern the others. */
  lemma OthersOk(s: St, t': Table, q: nat)
    requires Linked(s) && forall y | y in s.t && s.t[y].ioc != q :: y in t' && t'[y] == s.t[y]
    ensures forall p | p in s.qs && p != q :: QueueOk(t', p, s.qs[p])
  {
    hide Sorted, Counts, Distinct, ServiceOk, Counters;
    forall p | p in s.qs && p != q ensures QueueOk(t', p, s.qs[p]) {
      assert QueueOk(s.t, p, s.qs[p]);
      QueueFrame(s.t, t', p, s.qs[p]);
    }
  }

  lemma CountInHole(s: St, x: nat, rq: Rq)
    requires Linked(s) && x !in s.t && rq.ioc in s.qs
    ensures HoleOk(CountIn(s, x, rq), x) && x !in CountIn(s, x, rq).qs[rq.ioc].fifo
  {
    hide ServiceOk, QueueBut, QueueOk, Counters, CountersBut;
    var q := rq.ioc;
    CountInQueue(s.t, q, s.qs[q], x, rq);
    OthersOk(s, s.t[x := rq], q);
    CountInCounters(s, x, rq);
  }

  lemma CountInCounters(s: St, x: nat, rq: Rq)
    requires Counters(s) && x !in s.t && rq.ioc in s.qs && x !in s.qs[rq.ioc].tree
    ensures CountersBut(CountIn(s, x, rq), x)
  {
    assert x !in s.all;
  }

  /** cfq_insert_request. */
  function InsertRequest(s: St, conf: Conf, x: nat, rq: Rq, now: Times): St
    requires Linked(s) && x !in s.t && rq.ioc in s.qs
  {
    CountInHole(s, x, rq);
    AddRbLinked(CountIn(s, x, rq), conf, x, now, [x]);
    var r := AddRb(CountIn(s, x, rq), conf, x, now);
    r.(qs := r.qs[rq.ioc := r.qs[rq.ioc].(fifo := r.qs[rq.ioc].fifo + [x])])
  }

  lemma InsertLinked(s: St, conf: Conf, x: nat, rq: Rq, now: Times)
    requires Linked(s) && x !in s.t && rq.ioc in s.qs
    ensures Linked(InsertRequest(s, conf, x, rq, now))
  {
    hide Linked, AddRb, CountIn, HoleOk;
    CountInHole(s, x, rq);
    CountInTable(s, x, rq);
    AddRbLinked(CountIn(s, x, rq), conf, x, now, [x]);
  }

  lemma CountInTable(s: St, x: nat, rq: Rq)
    requires rq.ioc in s.qs
    ensures var r := CountIn(s, x, rq); x in r.t && r.t[x] == rq && rq.ioc in r.qs
  {
  }

  /** A bio of n sectors in front of x, which leaves the tree to be put back. */
  function PullOut(s: St, x: nat, n: nat): St
    requires Queued(s, x) && n <= s.t[x].sector
  {
    var q := s.t[x].ioc;
    s.(t := s.t[x := s.t[x].(sector := s.t[x].sector - n, nr := s.t[x].nr + n)],
       qs := s.qs[q := s.qs[q].(tree := Without(s.qs[q].tree, x))])
  }

  lemma PullOutQueue(t: Table, t': Table, q: nat, k: Queue, x: nat)
    requires QueueOk(t, q, k) && x in k.tree
    requires forall y | y in t :: y in t' && t'[y].ioc == t[y].ioc && t'[y].sync == t[y].sync
    requires forall y | y in t && y != x :: t'[y].sector == t[y].sector
    ensures QueueBut(t', q, k.(tree := Without(k.tree, x)), x) && x in k.fifo
  {
    hide Sorted, Counts, Distinct, Without;
    var r := k.(tree := Without(k.tree, x));
    TakenOut(t, k, x);
    SortedFrame(t, t', r.tree);
    assert Names(r.tree) + {x} == Names(k.tree);
    CountsFrame(t, t', k, r, Names(k.tree));
  }

  lemma PullOutHole(s: St, x: nat, n: nat)
    requires Linked(s) && Queued(s, x) && n <= s.t[x].sector
    ensures var r := PullOut(s, x, n); HoleOk(r, x) && r.t[x].ioc == s.t[x].ioc && x in r.qs[s.t[x].ioc].fifo
  {
    hide ServiceOk, QueueBut, QueueOk, Counters, CountersBut, Without, Known;
    var q, r := s.t[x].ioc, PullOut(s, x, n);
    OwnQueue(s, x);
    PullOutQueue(s.t, r.t, q, s.qs[q], x);
    OthersOk(s, r.t, q);
    PullOutCounters(s, x, n);
  }

  lemma PullOutCounters(s: St, x: nat, n: nat)
    requires Counters(s) && Queued(s, x) && n <= s.t[x].sector && x in s.all
    ensures CountersBut(PullOut(s, x, n), x)
  {
    hide Known;
  }

  /** cfq_merged_request after a front merge. */
  function Reposition(s: St, conf: Conf, x: nat, n: nat, now: Times): St
    requires Linked(s) && Queued(s, x) && n <= s.t[x].sector
  {
    PullOutHole(s, x, n);
    AddRb(PullOut(s, x, n), conf, x, now)
  }

  lemma RepositionLinked(s: St, conf: Conf, x: nat, n: nat, now: Times)
    requires Linked(s) && Queued(s, x) && n <= s.t[x].sector
    ensures Linked(Reposition(s, conf, x, n, now))
  {
    hide Linked, AddRb, PullOut, HoleOk;
    PullOutHole(s, x, n);
    var q, r := s.t[x].ioc, AddRb(PullOut(s, x, n), conf, x, now);
    AddRbLinked(PullOut(s, x, n), conf, x, now, []);
    assert r.qs[q].(fifo := r.qs[q].fifo + []) == r.qs[q];
    assert r.qs[q := r.qs[q]] == r.qs;
    assert r.(qs := r.qs) == r;
  }

  /** cfq_merged_requests, with the size already added to x, and elv_merge_requests' count. */
  function MergeRequests(s: St, conf: Conf, x: nat, y: nat): St
    requires Linked(s) && Queued(s, x) && Queued(s, y) && x != y && s.t[x].ioc == s.t[y].ioc
  {
    MergeQueued(s, x, y);
    var q := s.t[x].ioc;
    var t := s.t[x := s.t[x].(nr := s.t[x].nr + s.t[y].nr)];
    var s1 := s.(t := t, qs := s.qs[q := s.qs[q].(fifo := MergedFifo(s.t, s.qs[q].fifo, x, y))]);
    var r := RemoveRequest(s1, conf, y);
    r.(nrSorted := r.nrSorted - 1)
  }

  lemma MergeQueued(s: St, x: nat, y: nat)
    requires Linked(s) && Queued(s, x) && Queued(s, y) && x != y && s.t[x].ioc == s.t[y].ioc
    ensures var q := s.t[x].ioc;
            && x in s.qs[q].fifo && y in s.qs[q].fifo
            && var t := s.t[x := s.t[x].(nr := s.t[x].nr + s.t[y].nr)];
               var s1 := s.(t := t, qs := s.qs[q := s.qs[q].(fifo := MergedFifo(s.t, s.qs[q].fifo, x, y))]);
               Queued(s1, y) && Linked(s1)
  {
    hide ServiceOk, MergedFifo, QueueOk;
    var q := s.t[x].ioc;
    var t := s.t[x := s.t[x].(nr := s.t[x].nr + s.t[y].nr)];
    OwnQueue(s, x);
    SameFifo(s.t, q, s.qs[q]);
    OthersOk(s, t, q);
    QueueNames(s.t, q, s.qs[q]);
    QueueFrame(s.t, t, q, s.qs[q]);
    MergedFifoOk(s.t, t, q, s.qs[q], x, y);
    QueueNames(t, q, s.qs[q]);
  }

  lemma QueueNames(t: Table, q: nat, k: Queue)
    requires QueueOk(t, q, k)
    ensures Known(t, k.tree) && forall x | x in k.tree :: x in t
  {
  }

  lemma SameFifo(t: Table, q: nat, k: Queue)
    requires QueueOk(t, q, k)
    ensures forall x :: x in k.tree <==> x in k.fifo
  {
  }

  lemma MergedFifoOk(t: Table, t': Table, q: nat, k: Queue, x: nat, y: nat)
    requires QueueOk(t', q, k) && x in k.fifo && y in k.fifo && x != y && x in t && y in t
    ensures QueueOk(t', q, k.(fifo := MergedFifo(t, k.fifo, x, y)))
  {
    MoveAfterNames(k.fifo, x, y);
    CountsFrame(t', t', k, k.(fifo := MergedFifo(t, k.fifo, x, y)), Names(k.tree));
    hide Sorted, Counts, MoveAfter;
  }

  lemma MergeLinked(s: St, conf: Conf, x: nat, y: nat)
    requires Linked(s) && Queued(s, x) && Queued(s, y) && x != y && s.t[x].ioc == s.t[y].ioc
    ensures Linked(MergeRequests(s, conf, x, y))
  {
    hide Linked, RemoveRequest, MergedFifo, Known;
    MergeQueued(s, x, y);
    var q := s.t[x].ioc;
    var t := s.t[x := s.t[x].(nr := s.t[x].nr + s.t[y].nr)];
    var s1 := s.(t := t, qs := s.qs[q := s.qs[q].(fifo := MergedFifo(s.t, s.qs[q].fifo, x, y))]);
    RemoveLinked(s1, conf, y, RemoveRequest(s1, conf, y).out);
  }

  // ------------------------------------------------------------------ forced dispatch

  lemma NextQueued(s: St, q: nat)
    requires Linked(s) && q in s.qs && s.qs[q].next.Some?
    ensures Queued(s, s.qs[q].next.value) && s.t[s.qs[q].next.value].ioc == q
  {
    assert QueueOk(s.t, q, s.qs[q]);
  }

  lemma DispatchShrinks(s: St, conf: Conf, q: nat)
    requires Linked(s) && q in s.qs && s.qs[q].next.Some?
    ensures var x := s.qs[q].next.value;
            && Queued(s, x)
            && var r := DispatchInsert(s, conf, x);
               && Linked(r) && q in r.qs && |r.qs[q].tree| == |s.qs[q].tree| - 1 && r.all == s.all - {x} && x in s.all
               && r.qs.Keys == s.qs.Keys
  {
    hide Linked, RemoveRequest, Removed, DelRr, Known, CountOf;
    var x := s.qs[q].next.value;
    NextQueued(s, q);
    OwnQueue(s, x);
    RemoveFields(s, conf, x);
    DispatchLinked(s, conf, x);
    RemovedShrinks(s.t, conf, s.last, q, s.qs[q], x);
  }

  lemma RemovedShrinks(t: Table, conf: Conf, last: nat, q: nat, k: Queue, x: nat)
    requires QueueOk(t, q, k) && x in k.tree
    ensures |Removed(t, conf, last, k, x).tree| == |k.tree| - 1
  {
    SortedDistinct(t, k.tree);
    WithoutLength(k.tree, x);
  }

  /** __cfq_forced_dispatch_cfqq. */
  ghost function DrainQueue(s: St, conf: Conf, q: nat): St
    requires Linked(s) && q in s.qs
    decreases |s.qs[q].tree|
  {
    if s.qs[q].next.None? then s.(v := s.v.(bug := s.v.bug || s.qs[q].fifo != []))
    else
      DispatchShrinks(s, conf, q);
      DrainQueue(DispatchInsert(s, conf, s.qs[q].next.value), conf, q)
  }

  lemma EmptyQueue(s: St, q: nat)
    requires Linked(s) && q in s.qs
    ensures s.qs[q].next.None? <==> s.qs[q].tree == []
    ensures s.qs[q].tree == [] <==> s.qs[q].fifo == []
    ensures s.qs[q].tree == [] <==> q !in s.v.onRr
  {
    assert QueueOk(s.t, q, s.qs[q]);
    assert s.qs[q].tree != [] ==> s.qs[q].tree[0] in s.qs[q].fifo;
    assert s.qs[q].fifo != [] ==> s.qs[q].fifo[0] in s.qs[q].tree;
  }

  lemma {:induction false} DrainQueueEmpties(s: St, conf: Conf, q: nat)
    requires Linked(s) && q in s.qs
    ensures var r := DrainQueue(s, conf, q);
            Linked(r) && r.qs.Keys == s.qs.Keys && q !in r.v.onRr && r.all <= s.all
            && (s.qs[q].tree != [] ==> |r.all| < |s.all|)
    decreases |s.qs[q].tree|
  {
    hide Linked, DispatchInsert;
    EmptyQueue(s, q);
    if s.qs[q].next.None? {
      NoBug(s);
      assert s.v.(bug := s.v.bug || s.qs[q].fifo != []) == s.v;
    } else {
      DispatchShrinks(s, conf, q);
      var x := s.qs[q].next.value;
      DrainQueueEmpties(DispatchInsert(s, conf, x), conf, q);
      assert |s.all - {x}| == |s.all| - 1;
      Smaller(DrainQueue(s, conf, q).all, s.all - {x});
    }
  }

  lemma Smaller(a: set<nat>, b: set<nat>)
    requires a <= b
    ensures |a| <= |b|
  {
    if a != b {
      assert |b - a| > 0 && |b| == |a| + |b - a| by {
        assert b == a + (b - a);
      }
    }
  }

  lemma NoBug(s: St)
    requires Linked(s)
    ensures !s.v.bug && |s.all| == s.nrSorted == s.rqQueued && s.v.busy == |s.v.order|
    ensures s.v.order == [] ==> s.v.onRr == {}
  {
    if s.v.order == [] {
      forall q ensures q !in s.v.onRr {
        assert q in s.v.onRr ==> q in s.v.order;
      }
    }
  }

  lemma FirstLinked(s: St)
    requires Linked(s)
    ensures Linked(s.(v := RbFirst(s.v).0))
    ensures RbFirst(s.v).1.Some? ==> RbFirst(s.v).1.value in s.qs && s.qs[RbFirst(s.v).1.value].tree != []
    ensures RbFirst(s.v).1.None? <==> s.v.order == []
  {
    FirstIsTrue(s.v);
    assert s.v.order != [] ==> s.v.order[0] in s.v.onRr;
    hide ServiceOk, QueueOk;
  }

  /** cfq_forced_dispatch. */
  ghost function DrainAll(s: St, conf: Conf): St
    requires Linked(s)
    decreases |s.all|
  {
    FirstLinked(s);
    var (v, first) := RbFirst(s.v);
    if first.None? then s.(v := v.(bug := v.bug || v.busy != 0))
    else
      DrainQueueEmpties(s.(v := v), conf, first.value);
      DrainAll(DrainQueue(s.(v := v), conf, first.value), conf)
  }

  /** Forced dispatch ends, nothing is left in any queue, all counters are zero and no BUG_ON has fired. */
  lemma {:induction false} ForcedDrains(s: St, conf: Conf)
    requires Linked(s)
    ensures var r := DrainAll(s, conf);
            && Linked(r) && r.qs.Keys == s.qs.Keys && r.all == {} && r.nrSorted == r.rqQueued == r.v.busy == 0
            && !r.v.bug && r.v.order == []
            && forall q | q in r.qs :: r.qs[q].tree == r.qs[q].fifo == [] && r.qs[q].next.None?
    decreases |s.all|
  {
    hide Linked, DrainQueue, RbFirst;
    FirstLinked(s);
    var (v, first) := RbFirst(s.v);
    var s1 := s.(v := v);
    NoBug(s1);
    if first.None? {
      FirstOrder(s);
      assert v.(bug := v.bug || v.busy != 0) == v;
      AllEmpty(s1);
    } else {
      DrainQueueEmpties(s1, conf, first.value);
      ForcedDrains(DrainQueue(s1, conf, first.value), conf);
    }
  }

  lemma FirstOrder(s: St)
    ensures RbFirst(s.v).0.order == s.v.order
  {
  }

  lemma AllEmpty(s: St)
    requires Linked(s) && s.v.order == []
    ensures s.all == {} && forall q | q in s.qs :: s.qs[q].tree == s.qs[q].fifo == [] && s.qs[q].next.None?
  {
    NoBug(s);
    forall q | q in s.qs ensures s.qs[q].tree == s.qs[q].fifo == [] && s.qs[q].next.None? {
      EmptyQueue(s, q);
    }
    forall x ensures x !in s.all {}
  }

  // ---------------------------------------------------------------------------- runs

  datatype Step =
    | InsertStep(x: nat, rq: Rq, now: Times)
    | DispatchStep(q: nat, expired: bool)          // cfq_dispatch_request
    | BackMergeStep(x: nat, n: nat)
    | RepositionStep(x: nat, n: nat, now: Times)   // a front merge
    | MergeStep(x: nat, y: nat)
    | ResortStep(q: nat, front: bool, now: Times)  // a slice expires, or a queue preempts
    | FirstStep                                    // cfq_get_next_queue
    | HeadStep(last: nat)                          // cfq_activate_request
    | NewQueueStep(q: nat, prio: Prio)
    | ClassStep(q: nat, prio: Prio)                // a new class, while the queue is not busy

  ghost predicate Enabled(s: St, step: Step) {
    match step
    case InsertStep(x, rq, _) => x !in s.t && rq.ioc in s.qs
    case DispatchStep(q, _) => q in s.v.onRr
    case BackMergeStep(x, _) => Queued(s, x)
    case RepositionStep(x, n, _) => Queued(s, x) && n <= s.t[x].sector
    case MergeStep(x, y) => Queued(s, x) && Queued(s, y) && x != y && s.t[x].ioc == s.t[y].ioc
    case ResortStep(q, _, _) => q in s.v.onRr
    case FirstStep => true
    case HeadStep(_) => true
    case NewQueueStep(q, _) => q !in s.qs
    case ClassStep(q, _) => q in s.qs && q !in s.v.onRr
  }

  lemma BusyQueued(s: St, q: nat)
    requires Linked(s) && q in s.v.onRr
    ensures q in s.qs && s.qs[q].fifo != [] && s.qs[q].next.Some?
    ensures Queued(s, s.qs[q].fifo[0]) && Queued(s, s.qs[q].next.value)
    ensures q in s.v.prio && Listed(s.v.prio, s.v.order) && q in s.v.order
  {
    EmptyQueue(s, q);
    assert QueueOk(s.t, q, s.qs[q]);
    assert s.qs[q].fifo[0] in s.qs[q].fifo;
  }

  /** cfq_dispatch_request: the expired head of the FIFO, or the cached request. */
  ghost function DispatchFrom(s: St, conf: Conf, q: nat, expired: bool): St
    requires Linked(s) && q in s.v.onRr
  {
    BusyQueued(s, q);
    DispatchInsert(s, conf, if expired then s.qs[q].fifo[0] else s.qs[q].next.value)
  }

  /** The oldest request goes out if it has expired, the cached one if not. */
  lemma DispatchServes(s: St, conf: Conf, q: nat, expired: bool)
    requires Linked(s) && q in s.v.onRr
    ensures q in s.qs && s.qs[q].fifo != [] && s.qs[q].next.Some?
    ensures DispatchFrom(s, conf, q, expired).out == s.out + [if expired then s.qs[q].fifo[0] else s.qs[q].next.value]
  {
    hide Linked, RemoveRequest;
    BusyQueued(s, q);
    DispatchLinked(s, conf, if expired then s.qs[q].fifo[0] else s.qs[q].next.value);
  }

  ghost function ResortTree(s: St, q: nat, front: bool, now: Times): St
    requires Linked(s) && q in s.v.onRr
  {
    BusyQueued(s, q);
    s.(v := TreeAdd(s.v, q, front, now))
  }

  function NewQueue(s: St, q: nat, prio: Prio): St {
    s.(qs := s.qs[q := Queue([], [], None, 0, 0)], v := s.v.(prio := s.v.prio[q := prio]))
  }

  ghost function Apply(s: St, conf: Conf, step: Step): St
    requires Linked(s) && Enabled(s, step)
  {
    match step
    case InsertStep(x, rq, now) => InsertRequest(s, conf, x, rq, now)
    case DispatchStep(q, expired) => DispatchFrom(s, conf, q, expired)
    case BackMergeStep(x, n) => s.(t := s.t[x := s.t[x].(nr := s.t[x].nr + n)])
    case RepositionStep(x, n, now) => Reposition(s, conf, x, n, now)
    case MergeStep(x, y) => MergeRequests(s, conf, x, y)
    case ResortStep(q, front, now) => ResortTree(s, q, front, now)
    case FirstStep => s.(v := RbFirst(s.v).0)
    case HeadStep(last) => s.(last := last)
    case NewQueueStep(q, prio) => NewQueue(s, q, prio)
    case ClassStep(q, prio) => s.(v := s.v.(prio := s.v.prio[q := prio]))
  }

  lemma ResortLinked(s: St, q: nat, front: bool, now: Times)
    requires Linked(s) && q in s.v.onRr
    ensures Linked(ResortTree(s, q, front, now))
  {
    hide QueueOk, ServiceOk, TreeAdd, Counters, Known, Listed;
    BusyQueued(s, q);
    TreeAddOk(s.v, q, front, now);
    PrioStays(s.v, q, front, now);
    CountersFrame(s, s.(v := TreeAdd(s.v, q, front, now)));
  }

  lemma CountersFrame(s: St, r: St)
    requires Counters(s) && r.t == s.t && r.qs == s.qs && r.all == s.all
    requires r.rqQueued == s.rqQueued && r.nrSorted == s.nrSorted
    ensures Counters(r)
  {
  }

  lemma NewQueueLinked(s: St, q: nat, prio: Prio)
    requires Linked(s) && q !in s.qs
    ensures Linked(NewQueue(s, q, prio))
  {
    hide QueueOk, ServiceOk;
    NewQueueOk(s.t, q);
    ServicePrio(s.v, q, prio);
  }

  lemma ClassLinked(s: St, q: nat, prio: Prio)
    requires Linked(s) && q in s.qs && q !in s.v.onRr
    ensures Linked(s.(v := s.v.(prio := s.v.prio[q := prio])))
  {
    hide QueueOk, ServiceOk;
    ServicePrio(s.v, q, prio);
  }

  lemma BackMergeLinked(s: St, x: nat, n: nat)
    requires Linked(s) && Queued(s, x)
    ensures Linked(s.(t := s.t[x := s.t[x].(nr := s.t[x].nr + n)]))
  {
    hide ServiceOk, QueueOk;
    var t := s.t[x := s.t[x].(nr := s.t[x].nr + n)];
    OthersOk(s, t, s.t[x].ioc);
    OwnQueue(s, x);
    QueueNames(s.t, s.t[x].ioc, s.qs[s.t[x].ioc]);
    QueueFrame(s.t, t, s.t[x].ioc, s.qs[s.t[x].ioc]);
  }

  lemma ServicePrio(v: Service, q: nat, prio: Prio)
    requires ServiceOk(v) && q !in v.onRr
    ensures ServiceOk(v.(prio := v.prio[q := prio]))
  {
    OrderedFrame(v.prio, v.prio[q := prio], v.order);
  }

  lemma NewQueueOk(t: Table, q: nat)
    ensures QueueOk(t, q, Queue([], [], None, 0, 0))
  {
    assert OfDir(t, Names([]), true) == {} == OfDir(t, Names([]), false);
  }

  /** No step breaks the agreement of the indexes and counters. */
  lemma StepLinked(s: St, conf: Conf, step: Step)
    requires Linked(s) && Enabled(s, step)
    ensures Linked(Apply(s, conf, step))
  {
    hide QueueOk, ServiceOk, InsertRequest, DispatchInsert, Reposition, MergeRequests, ResortTree, RbFirst, NewQueue;
    match step
    case InsertStep(x, rq, now) => InsertLinked(s, conf, x, rq, now);
    case DispatchStep(q, expired) =>
      BusyQueued(s, q);
      DispatchLinked(s, conf, if expired then s.qs[q].fifo[0] else s.qs[q].next.value);
    case BackMergeStep(x, n) => BackMergeLinked(s, x, n);
    case RepositionStep(x, n, now) => RepositionLinked(s, conf, x, n, now);
    case MergeStep(x, y) => MergeLinked(s, conf, x, y);
    case ResortStep(q, front, now) => ResortLinked(s, q, front, now);
    case FirstStep => FirstLinked(s);
    case HeadStep(last) => CountersFrame(s, s.(last := last));
    case NewQueueStep(q, prio) => NewQueueLinked(s, q, prio);
    case ClassStep(q, prio) => ClassLinked(s, q, prio);
  }

  ghost predicate Runs(s: St, conf: Conf, steps: seq<Step>, r: St)
    requires Linked(s)
    decreases |steps|
  {
    if steps == [] then r == s
    else Enabled(s, steps[0]) && (StepLinked(s, conf, steps[0]); Runs(Apply(s, conf, steps[0]), conf, steps[1..], r))
  }

  lemma {:induction false} RunLinked(s: St, conf: Conf, steps: seq<Step>, r: St)
    requires Linked(s) && Runs(s, conf, steps, r)
    ensures Linked(r)
    decreases |steps|
  {
    if steps != [] {
      hide Linked, Enabled, Apply;
      StepLinked(s, conf, steps[0]);
      RunLinked(Apply(s, conf, steps[0]), conf, steps[1..], r);
    }
  }

  ghost predicate Fresh(s: St) {
    && s.qs == map[] && s.v == Service(map[], [], None, {}, 0, false)
    && s.rqQueued == s.nrSorted == 0 && s.all == {}
  }

  /**
   In every state CFQ can reach: each queue's tree and FIFO hold the same requests; next_rq is NULL
   iff the tree is empty; a queue is on_rr iff it has requests; busy_queues counts those; the
   leftmost cache is NULL or the first node; nr_sorted and rq_queued count the requests of all queues.
   */
  lemma IndexesAgree(init: St, conf: Conf, steps: seq<Step>, s: St)
    requires Fresh(init) && Runs(init, conf, steps, s)
    ensures forall q, x | q in s.qs :: x in s.qs[q].tree <==> x in s.qs[q].fifo
    ensures forall q | q in s.qs :: s.qs[q].next.None? <==> s.qs[q].tree == []
    ensures forall q :: q in s.v.onRr <==> q in s.qs && s.qs[q].tree != []
    ensures s.v.busy == |s.v.order| && (forall q :: q in s.v.order <==> q in s.v.onRr) && Distinct(s.v.order)
    ensures s.v.left.Some? ==> s.v.order != [] && s.v.left.value == s.v.order[0]
    ensures s.nrSorted == s.rqQueued == |s.all| && !s.v.bug
    ensures forall x :: x in s.all <==> exists q :: q in s.qs && x in s.qs[q].tree
    ensures forall q, q', x | q in s.qs && q' in s.qs && x in s.qs[q].tree && x in s.qs[q'].tree :: q == q'
  {
    RunLinked(init, conf, steps, s);
    forall q, x | q in s.qs && x in s.qs[q].tree ensures x in s.t && s.t[x].ioc == q {
      assert QueueOk(s.t, q, s.qs[q]);
    }
    forall q | q in s.qs
      ensures forall x :: x in s.qs[q].tree <==> x in s.qs[q].fifo
      ensures s.qs[q].next.None? <==> s.qs[q].tree == []
    {
      assert QueueOk(s.t, q, s.qs[q]);
    }
    hide QueueOk, Ordered;
  }
}
