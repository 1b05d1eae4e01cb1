/**
 CFQ's service tree (block/cfq-iosched.c): the queues with requests, real-time ones first, idle
 ones last and by key in between, with a cached leftmost node that may be unset.
 */
module CfqService {
  import opened SortList

  /**
   What goes into a service key: jiffies, the fair time of the queue (cfq_slice_offset + jiffies +
   slice_resid), and CFQ_IDLE_DELAY, which is HZ / 5.
   */
  datatype Times = Times(jiffies: nat, fair: nat, idleDelay: nat)

  /** The class of a queue and its rb_key. */
  datatype Prio = Prio(rt: bool, idle: bool, key: nat)

  /** service_tree.rb in order, service_tree.left, the on_rr flags and busy_queues; bug: a BUG_ON has fired. */
  datatype Service = Service(
    prio: map<nat, Prio>, order: seq<nat>, left: Option<nat>, onRr: set<nat>, busy: int, bug: bool)

  /** Where cfq_service_tree_add turns left at a node holding b. */
  predicate Less(a: Prio, b: Prio) {
    if a.rt != b.rt then a.rt
    else if a.idle != b.idle then b.idle
    else a.key < b.key
  }

  predicate Listed(prio: map<nat, Prio>, l: seq<nat>) {
    forall i | 0 <= i < |l| :: l[i] in prio
  }

  predicate Ordered(prio: map<nat, Prio>, l: seq<nat>) {
    Listed(prio, l) && forall i, j | 0 <= i < j < |l| :: !Less(prio[l[j]], prio[l[i]])
  }

  /** The descent of cfq_service_tree_add: behind every node that is not greater. */
  function Link(prio: map<nat, Prio>, l: seq<nat>, q: nat): (r: seq<nat>)
    requires Listed(prio, l) && q in prio
    ensures forall x :: x in r <==> x in l || x == q
    ensures |r| == |l| + 1
  {
    if l == [] || Less(prio[q], prio[l[0]]) then [q] + l else [l[0]] + Link(prio, l[1..], q)
  }

  /** cfq_rb_erase. */
  function Erase(v: Service, q: nat): Service {
    v.(left := if v.left == Some(q) then None else v.left, order := Without(v.order, q))
  }

  /** The rb_key cfq_service_tree_add computes. */
  function NewKey(v: Service, q: nat, front: bool, now: Times): nat
    requires q in v.prio && Listed(v.prio, v.order)
  {
    if v.prio[q].idle then
      now.idleDelay +
      if v.order != [] && v.order[|v.order| - 1] != q then v.prio[v.order[|v.order| - 1]].key else now.jiffies
    else if front then 0 else now.fair
  }

  /** cfq_service_tree_add. */
  function TreeAdd(v: Service, q: nat, front: bool, now: Times): Service
    requires q in v.prio && Listed(v.prio, v.order)
  {
    var key := NewKey(v, q, front, now);
    if q in v.order && key == v.prio[q].key then v
    else
      var v1 := (if q in v.order then Erase(v, q) else v).(prio := v.prio[q := v.prio[q].(key := key)]);
      ListedWithout(v.prio, v1.prio, v.order, q);
      var order := Link(v1.prio, v1.order, q);
      v1.(order := order, left := if order[0] == q then Some(q) else v1.left)
  }

  lemma ListedWithout(p: map<nat, Prio>, p': map<nat, Prio>, l: seq<nat>, q: nat)
    requires Listed(p, l) && forall x | x in p :: x in p'
    ensures Listed(p', Without(l, q)) && Listed(p', l)
  {
    var r := Without(l, q);
    forall i | 0 <= i < |r| ensures r[i] in p' {
      assert r[i] in l;
    }
  }

  /** cfq_resort_rr_list. */
  function Resort(v: Service, q: nat, now: Times): Service
    requires q in v.prio && Listed(v.prio, v.order)
  {
    if q in v.onRr then TreeAdd(v, q, false, now) else v
  }

  /** cfq_add_cfqq_rr. */
  function AddRr(v: Service, q: nat, now: Times): Service
    requires q in v.prio && Listed(v.prio, v.order)
  {
    Resort(v.(bug := v.bug || q in v.onRr, onRr := v.onRr + {q}, busy := v.busy + 1), q, now)
  }

  /** cfq_del_cfqq_rr. */
  function DelRr(v: Service, q: nat): Service {
    var v1 := v.(bug := v.bug || q !in v.onRr || v.busy == 0, onRr := v.onRr - {q}, busy := v.busy - 1);
    if q in v.order then Erase(v1, q) else v1
  }

  /** cfq_rb_first, and the cache it fills. */
  function RbFirst(v: Service): (Service, Option<nat>) {
    var v1 := if v.left.None? && v.order != [] then v.(left := Some(v.order[0])) else v;
    (v1, v1.left)
  }

  // ---------------------------------------------------------------------- invariant

  /** The tree is in order and holds the queues on_rr, which busy_queues counts; left is unset or the first. */
  ghost predicate ServiceOk(v: Service) {
    && Ordered(v.prio, v.order) && Distinct(v.order)
    && (forall q :: q in v.order <==> q in v.onRr)
    && v.busy == |v.order|
    && (v.left.Some? ==> v.order != [] && v.left.value == v.order[0])
  }

  lemma FirstIsTrue(v: Service)
    requires ServiceOk(v)
    ensures var (r, first) := RbFirst(v);
            && ServiceOk(r) && r.order == v.order && r.onRr == v.onRr && r.prio == v.prio && r.busy == v.busy && r.bug == v.bug
            && first == if v.order == [] then None else Some(v.order[0])
  {
  }

  lemma {:induction false} LinkOrdered(prio: map<nat, Prio>, l: seq<nat>, q: nat)
    requires Ordered(prio, l) && q in prio
    ensures Ordered(prio, Link(prio, l, q))
  {
    var r := Link(prio, l, q);
    if l == [] || Less(prio[q], prio[l[0]]) {
      forall j | 0 <= j < |l| ensures !Less(prio[l[j]], prio[q]) {
        assert j > 0 ==> !Less(prio[l[j]], prio[l[0]]);
      }
    } else {
      LinkOrdered(prio, l[1..], q);
      var tail := Link(prio, l[1..], q);
      forall j | 0 <= j < |tail| ensures !Less(prio[tail[j]], prio[l[0]]) {
        assert tail[j] in tail;
        assert tail[j] == q || tail[j] in l[1..];
      }
    }
  }

  lemma {:induction false} LinkDistinct(prio: map<nat, Prio>, l: seq<nat>, q: nat)
    requires Listed(prio, l) && q in prio && Distinct(l) && q !in l
    ensures Distinct(Link(prio, l, q))
  {
    if !(l == [] || Less(prio[q], prio[l[0]])) {
      LinkDistinct(prio, l[1..], q);
      assert l[0] !in Link(prio, l[1..], q);
    }
  }

  /** Linking in front is the only way to change the first node. */
  lemma LinkFirst(prio: map<nat, Prio>, l: seq<nat>, q: nat)
    requires Listed(prio, l) && q in prio && q !in l && l != []
    ensures var r := Link(prio, l, q); r[0] == q || r[0] == l[0]
  {
  }

  lemma {:induction false} WithoutOrdered(prio: map<nat, Prio>, l: seq<nat>, q: nat)
    requires Ordered(prio, l)
    ensures Ordered(prio, Without(l, q))
  {
    if l != [] {
      WithoutOrdered(prio, l[1..], q);
      if l[0] != q {
        PrependOrdered(prio, l[0], l[1..], Without(l[1..], q));
      }
    }
  }

  lemma PrependOrdered(prio: map<nat, Prio>, x: nat, l: seq<nat>, r: seq<nat>)
    requires Ordered(prio, [x] + l) && Ordered(prio, r) && forall y :: y in r ==> y in l
    ensures Ordered(prio, [x] + r)
  {
    assert ([x] + l)[0] == x;
    forall j | 0 <= j < |r| ensures !Less(prio[r[j]], prio[x]) {
      assert r[j] in l;
      var k := Index(l, r[j]);
      assert ([x] + l)[k + 1] == r[j];
    }
  }

  lemma OrderedFrame(p: map<nat, Prio>, p': map<nat, Prio>, l: seq<nat>)
    requires Ordered(p, l) && forall x | x in l :: x in p' && p'[x] == p[x]
    ensures Ordered(p', l)
  {
    forall i | 0 <= i < |l| ensures l[i] in p' && p'[l[i]] == p[l[i]] {
      assert l[i] in l;
    }
  }

  lemma {:induction false} WithoutFirst(l: seq<nat>, q: nat)
    requires l != [] && l[0] != q
    ensures Without(l, q) != [] && Without(l, q)[0] == l[0]
  {
  }

  /** Erasing a node keeps order and cache. */
  lemma EraseOk(v: Service, q: nat)
    requires ServiceOk(v) && q in v.order
    ensures var r := Erase(v, q);
            && Ordered(r.prio, r.order) && Distinct(r.order) && |r.order| == |v.order| - 1
            && (forall x :: x in r.order <==> x in v.order && x != q)
            && (r.left.Some? ==> r.order != [] && r.left.value == r.order[0])
  {
    WithoutOrdered(v.prio, v.order, q);
    WithoutLength(v.order, q);
    if v.order[0] != q {
      WithoutFirst(v.order, q);
    }
  }

  /** Order and cache alone, without the counts. */
  ghost predicate TreeOk(prio: map<nat, Prio>, order: seq<nat>, left: Option<nat>) {
    Ordered(prio, order) && Distinct(order) && (left.Some? ==> order != [] && left.value == order[0])
  }

  lemma LinkOk(prio: map<nat, Prio>, order: seq<nat>, left: Option<nat>, q: nat)
    requires TreeOk(prio, order, left) && q in prio && q !in order
    ensures var r := Link(prio, order, q); TreeOk(prio, r, if r[0] == q then Some(q) else left)
  {
    LinkOrdered(prio, order, q);
    LinkDistinct(prio, order, q);
    if order != [] {
      LinkFirst(prio, order, q);
    }
    hide Ordered, Distinct;
  }

  lemma TreeFrame(p: map<nat, Prio>, p': map<nat, Prio>, order: seq<nat>, left: Option<nat>)
    requires TreeOk(p, order, left) && forall x | x in order :: x in p && x in p' && p'[x] == p[x]
    ensures TreeOk(p', order, left)
  {
    OrderedFrame(p, p', order);
    hide Ordered, Distinct;
  }

  lemma OrderKnown(v: Service)
    requires Listed(v.prio, v.order)
    ensures forall x | x in v.order :: x in v.prio
  {
  }

  lemma TreeAddNew(v: Service, q: nat, front: bool, now: Times)
    requires q in v.prio && Listed(v.prio, v.order) && q in v.onRr && q !in v.order
    requires ServiceOk(v.(onRr := v.onRr - {q}, busy := v.busy - 1))
    ensures ServiceOk(TreeAdd(v, q, front, now))
    ensures TreeAdd(v, q, front, now).onRr == v.onRr && TreeAdd(v, q, front, now).bug == v.bug
  {
    hide Ordered, Distinct, Link, Listed, NewKey;
    var p := v.prio[q := v.prio[q].(key := NewKey(v, q, front, now))];
    OrderKnown(v);
    TreeFrame(v.prio, p, v.order, v.left);
    LinkOk(p, v.order, v.left, q);
  }

  lemma TreeAddAgain(v: Service, q: nat, front: bool, now: Times)
    requires q in v.prio && Listed(v.prio, v.order) && q in v.onRr && q in v.order && ServiceOk(v)
    ensures ServiceOk(TreeAdd(v, q, front, now))
    ensures TreeAdd(v, q, front, now).onRr == v.onRr && TreeAdd(v, q, front, now).bug == v.bug
  {
    hide Ordered, Distinct, Link, Listed, NewKey, Without;
    var p := v.prio[q := v.prio[q].(key := NewKey(v, q, front, now))];
    OrderKnown(v);
    EraseOk(v, q);
    var e := Erase(v, q);
    TreeFrame(v.prio, p, e.order, e.left);
    LinkOk(p, e.order, e.left, q);
  }

  /** cfq_service_tree_add puts the queue where it belongs and keeps the cache true. */
  lemma TreeAddOk(v: Service, q: nat, front: bool, now: Times)
    requires q in v.prio && Listed(v.prio, v.order) && q in v.onRr
    requires ServiceOk(if q in v.order then v else v.(onRr := v.onRr - {q}, busy := v.busy - 1))
    ensures ServiceOk(TreeAdd(v, q, front, now))
    ensures TreeAdd(v, q, front, now).onRr == v.onRr && TreeAdd(v, q, front, now).bug == v.bug
  {
    hide ServiceOk, TreeAdd;
    if q in v.order {
      TreeAddAgain(v, q, front, now);
    } else {
      TreeAddNew(v, q, front, now);
    }
  }

  /** A queue gets its first request: it joins the tree, and busy_queues counts it. */
  lemma AddRrOk(v: Service, q: nat, now: Times)
    requires ServiceOk(v) && q in v.prio && q !in v.onRr
    ensures var r := AddRr(v, q, now); ServiceOk(r) && r.onRr == v.onRr + {q} && r.bug == v.bug
  {
    var v1 := v.(bug := v.bug || q in v.onRr, onRr := v.onRr + {q}, busy := v.busy + 1);
    assert v1.onRr - {q} == v.onRr;
    assert v1.(onRr := v1.onRr - {q}, busy := v1.busy - 1) == v;
    assert q !in v.order;
    hide ServiceOk, TreeAdd;
    TreeAddOk(v1, q, false, now);
  }

  /** A queue loses its last request. */
  lemma DelRrOk(v: Service, q: nat)
    requires ServiceOk(v) && q in v.onRr
    ensures var r := DelRr(v, q); ServiceOk(r) && r.onRr == v.onRr - {q} && r.bug == v.bug && r.prio == v.prio
  {
    EraseOk(v, q);
    assert v.order != [];
    hide Ordered, Distinct;
  }

  lemma PrioStays(v: Service, q: nat, front: bool, now: Times)
    requires q in v.prio && Listed(v.prio, v.order)
    ensures TreeAdd(v, q, front, now).prio.Keys == v.prio.Keys
    ensures AddRr(v, q, now).prio.Keys == v.prio.Keys
  {
    hide Link, Without;
  }

  // -------------------------------------------------------------------- whose turn it is

  /** Queues with a request are served in this order: real-time ones first, idle ones last, and by key within a class. */
  lemma ServedInOrder(v: Service, i: nat, j: nat)
    requires ServiceOk(v) && i < j < |v.order|
    ensures v.order[i] in v.prio && v.order[j] in v.prio
    ensures var a, b := v.prio[v.order[i]], v.prio[v.order[j]];
            && (b.rt ==> a.rt)
            && (a.rt == b.rt && a.idle ==> b.idle)
            && (a.rt == b.rt && a.idle == b.idle ==> a.key <= b.key)
  {
    assert !Less(v.prio[v.order[j]], v.prio[v.order[i]]);
  }

  lemma {:induction false} LinkSplits(prio: map<nat, Prio>, l: seq<nat>, q: nat) returns (k: nat)
    requires Ordered(prio, l) && q in prio
    ensures k <= |l| && Link(prio, l, q) == l[..k] + [q] + l[k..]
    ensures forall i | 0 <= i < k :: !Less(prio[q], prio[l[i]])
    ensures forall i | k <= i < |l| :: Less(prio[q], prio[l[i]])
  {
    if l == [] || Less(prio[q], prio[l[0]]) {
      k := 0;
      assert l[..0] + [q] + l[0..] == [q] + l;
      forall i | 0 <= i < |l| ensures Less(prio[q], prio[l[i]]) {
        assert 0 < i ==> !Less(prio[l[i]], prio[l[0]]);
      }
    } else {
      k := LinkSplits(prio, l[1..], q);
      k := k + 1;
      assert l[1..][..k - 1] == l[1..k] && l[1..][k - 1..] == l[k..];
      assert [l[0]] + (l[1..k] + [q] + l[k..]) == l[..k] + [q] + l[k..];
      forall i | 0 <= i < k ensures !Less(prio[q], prio[l[i]]) {
        assert i > 0 ==> l[i] == l[1..][i - 1];
      }
      forall i | k <= i < |l| ensures Less(prio[q], prio[l[i]]) {
        assert l[i] == l[1..][i - 1];
      }
    }
  }

  /** a is served before b, or b was there first. */
  ghost predicate NotAfter(a: Prio, b: Prio) {
    && (b.rt ==> a.rt) && (a.rt == b.rt && a.idle ==> b.idle)
    && (a.rt == b.rt && a.idle == b.idle ==> a.key <= b.key)
  }

  ghost predicate StrictlyBefore(a: Prio, b: Prio) {
    NotAfter(a, b) && (a.rt == b.rt && a.idle == b.idle ==> a.key < b.key)
  }

  /**
   A queue that is put into the tree, or moved in it: the others keep their order, those it is not served before
   stand before it, equals among them, and it stands before the rest.
   */
  lemma TreeAddPlaces(v: Service, q: nat, front: bool, now: Times) returns (k: nat)
    requires q in v.prio && Listed(v.prio, v.order) && q in v.onRr
    requires ServiceOk(if q in v.order then v else v.(onRr := v.onRr - {q}, busy := v.busy - 1))
    requires TreeAdd(v, q, front, now) != v
    ensures var r, rest := TreeAdd(v, q, front, now), Without(v.order, q);
            && Listed(v.prio, rest) && q in r.prio && r.prio[q] == v.prio[q].(key := r.prio[q].key)
            && (!v.prio[q].idle ==> r.prio[q].key == if front then 0 else now.fair)
            && k <= |rest| && r.order == rest[..k] + [q] + rest[k..]
            && r.left == (if k == 0 then Some(q) else if v.left == Some(q) then None else v.left)
            && (forall i | 0 <= i < k :: NotAfter(v.prio[rest[i]], r.prio[q]))
            && (forall i | k <= i < |rest| :: StrictlyBefore(r.prio[q], v.prio[rest[i]]))
  {
    hide Less, TreeAdd, Without, NewKey;
    var rest := Without(v.order, q);
    var r := TreeAdd(v, q, front, now);
    TreeAddIs(v, q, front, now);
    ListedWithout(v.prio, v.prio, v.order, q);
    WithoutOrdered(v.prio, v.order, q);
    OrderedFrame(v.prio, r.prio, rest);
    k := LinkSplits(r.prio, rest, q);
    forall i | 0 <= i < k ensures NotAfter(v.prio[rest[i]], r.prio[q]) {
      LessIs(r.prio[q], v.prio[rest[i]]);
    }
    forall i | k <= i < |rest| ensures StrictlyBefore(r.prio[q], v.prio[rest[i]]) {
      LessIs(r.prio[q], v.prio[rest[i]]);
    }
  }

  lemma LessIs(a: Prio, b: Prio)
    ensures Less(a, b) <==> StrictlyBefore(a, b)
    ensures Less(a, b) <==> !NotAfter(b, a)
  {
  }

  lemma TreeAddIs(v: Service, q: nat, front: bool, now: Times)
    requires q in v.prio && Listed(v.prio, v.order) && TreeAdd(v, q, front, now) != v
    ensures var r, rest := TreeAdd(v, q, front, now), Without(v.order, q);
            && q !in rest && q in r.prio && r.prio == v.prio[q := v.prio[q].(key := r.prio[q].key)]
            && r.prio[q].key == NewKey(v, q, front, now)
            && (!v.prio[q].idle ==> r.prio[q].key == if front then 0 else now.fair)
            && Listed(r.prio, rest) && r.order == Link(r.prio, rest, q)
            && r.left == if r.order[0] == q then Some(q) else if q in v.order && v.left == Some(q) then None else v.left
  {
    ListedWithout(v.prio, TreeAdd(v, q, front, now).prio, v.order, q);
  }

  /** A queue of the idle class goes behind all others, unless it is last already. */
  lemma IdleGoesLast(v: Service, q: nat, front: bool, now: Times)
    requires q in v.prio && Listed(v.prio, v.order) && q in v.onRr && v.prio[q].idle && !v.prio[q].rt && now.idleDelay > 0
    requires ServiceOk(if q in v.order then v else v.(onRr := v.onRr - {q}, busy := v.busy - 1))
    requires v.order != [] && v.order[|v.order| - 1] != q
    ensures var r := TreeAdd(v, q, front, now).order; r != [] && r[|r| - 1] == q
  {
    var r, rest, last := TreeAdd(v, q, front, now), Without(v.order, q), v.order[|v.order| - 1];
    IdleMoves(v, q, front, now);
    hide TreeAdd, Without, NewKey, ServiceOk, Link, Less;
    TreeAddIs(v, q, front, now);
    var k := TreeAddPlaces(v, q, front, now);
    WithoutLast(v.order, q);
    BeyondLast(v.prio[q].(key := r.prio[q].key), v.prio[last]);
    hide StrictlyBefore, NotAfter, Listed;
    assert k == |rest|;
  }

  lemma BeyondLast(a: Prio, last: Prio)
    requires a.idle && !a.rt && a.key > last.key
    ensures !StrictlyBefore(a, last)
  {
  }

  lemma IdleMoves(v: Service, q: nat, front: bool, now: Times)
    requires q in v.prio && Listed(v.prio, v.order) && q in v.onRr && v.prio[q].idle && !v.prio[q].rt && now.idleDelay > 0
    requires ServiceOk(if q in v.order then v else v.(onRr := v.onRr - {q}, busy := v.busy - 1))
    requires v.order != [] && v.order[|v.order| - 1] != q
    ensures TreeAdd(v, q, front, now) != v
    ensures NewKey(v, q, front, now) > v.prio[v.order[|v.order| - 1]].key
  {
    hide Link, Less;
    if q in v.order {
      var i :| 0 <= i < |v.order| && v.order[i] == q;
      ServedInOrder(v, i, |v.order| - 1);
      assert TreeAdd(v, q, front, now).prio[q].key != v.prio[q].key;
    } else {
      assert q in TreeAdd(v, q, front, now).order;
    }
  }

  lemma {:induction false} WithoutLast(l: seq<nat>, q: nat)
    requires l != [] && l[|l| - 1] != q
    ensures var r := Without(l, q); r != [] && r[|r| - 1] == l[|l| - 1]
  {
    if |l| > 1 {
      WithoutLast(l[1..], q);
    } else {
      assert l == [l[0]];
    }
  }
}
