/** struct cfq_data as block/cfq-iosched.c changes it, each operation against its meaning in Cfq. */
module CfqQueue {
  import opened SortList
  import opened CfqService
  import opened Cfq

  lemma {:induction false} LinkAt(prio: map<nat, Prio>, l: seq<nat>, q: nat, i: nat)
    requires Listed(prio, l) && q in prio && i <= |l|
    requires forall j | 0 <= j < i :: !Less(prio[q], prio[l[j]])
    requires i < |l| ==> Less(prio[q], prio[l[i]])
    ensures Link(prio, l, q) == l[..i] + [q] + l[i..]
  {
    if i > 0 {
      LinkAt(prio, l[1..], q, i - 1);
      assert l == [l[0]] + l[1..];
      assert l[1..][..i - 1] == l[1..i] && l[1..][i - 1..] == l[i..];
      assert [l[0]] + (l[1..i] + [q] + l[i..]) == l[..i] + [q] + l[i..];
    }
  }

  class CfqData {
    var t: Table
    var qs: map<nat, Queue>
    var v: Service
    var rqQueued: int
    var nrSorted: int
    var last: nat
    ghost var all: set<nat>
    ghost var out: seq<nat>
    const conf: Conf

    ghost function State(): St
      reads this
    {
      St(t, qs, v, rqQueued, nrSorted, last, all, out)
    }

    ghost predicate Valid()
      reads this
    {
      Linked(State())
    }

    constructor (conf: Conf)
      ensures Valid() && Fresh(State()) && this.conf == conf
    {
      this.conf := conf;
      t, qs, v, rqQueued, nrSorted, last, all, out :=
        map[], map[], Service(map[], [], None, {}, 0, false), 0, 0, 0, {}, [];
    }

    /** cfq_service_tree_add: the descent stops in front of the first greater node. */
    method ServiceTreeAdd(q: nat, front: bool, now: Times)
      requires q in v.prio && Listed(v.prio, v.order)
      modifies this`v
      ensures v == TreeAdd(old(v), q, front, now)
    {
      var key := NewKey(v, q, front, now);
      if q in v.order {
        if key == v.prio[q].key {
          return;
        }
        ListedWithout(v.prio, v.prio, v.order, q);
        v := Erase(v, q);
      }
      v := v.(prio := v.prio[q := v.prio[q].(key := key)]);
      var left, i := true, 0;
      while i < |v.order| && !Less(v.prio[q], v.prio[v.order[i]])
        invariant i <= |v.order| && (left <==> i == 0)
        invariant forall j | 0 <= j < i :: !Less(v.prio[q], v.prio[v.order[j]])
      {
        left := false;
        i := i + 1;
      }
      LinkAt(v.prio, v.order, q, i);
      assert q !in v.order;
      v := v.(order := v.order[..i] + [q] + v.order[i..], left := if left then Some(q) else v.left);
    }

    /** cfq_remove_request. */
    method RemoveRequestFrom(x: nat)
      requires Queued(State(), x)
      modifies this
      ensures State() == RemoveRequest(old(State()), conf, x)
    {
      hide Removed, FindNext;
      var q, rq := t[x].ioc, t[x];
      var k := qs[q];
      v := v.(bug := v.bug || CountOf(k, rq.sync) == 0);
      qs := qs[q := Removed(t, conf, last, k, x)];
      if q in v.onRr && qs[q].tree == [] {
        v := DelRr(v, q);
      }
      rqQueued := rqQueued - 1;
      all := all - {x};
    }

    /** cfq_dispatch_insert. */
    method DispatchRequest(x: nat)
      requires Queued(State(), x)
      modifies this
      ensures State() == DispatchInsert(old(State()), conf, x)
    {
      hide Linked, RemoveRequest;
      RemoveRequestFrom(x);
      nrSorted, out := nrSorted - 1, out + [x];
    }

    /** cfq_add_rq_rb, with queued[] already incremented. */
    method AddRqRb(x: nat, now: Times)
      requires HoleOk(State(), x)
      modifies this
      ensures State() == AddRb(old(State()), conf, x, now)
    {
      hide HoleOk, DispatchInsert, Filled, Insert, AddRr, Known, Listed;
      ghost var s := State();
      HoleKnown(s, x);
      MoveAliasHole(s, conf, x);
      var q, sector := t[x].ioc, t[x].sector;
      var alias := Find(t, qs[q].tree, sector);
      while alias.Some?
        invariant HoleOk(State(), x) && x in t && t == s.t && q in qs && Known(t, qs[q].tree)
        invariant alias == Find(t, qs[q].tree, sector)
        invariant State() == if alias.Some? then s else MoveAlias(s, conf, x)
        decreases alias.Some?
      {
        AliasHole(State(), conf, x, alias.value);
        DispatchRequest(alias.value);
        HoleKnown(State(), x);
        alias := Find(t, qs[q].tree, sector);
      }
      HoleKnown(State(), x);
      if q !in v.onRr {
        v := AddRr(v, q, now);
      }
      qs := qs[q := Filled(t, conf, last, qs[q], x)];
      v := v.(bug := v.bug || qs[q].next.None?);
    }

    /** cfq_insert_request. */
    method InsertNew(x: nat, rq: Rq, now: Times)
      requires Valid() && x !in t && rq.ioc in qs
      modifies this
      ensures Valid() && State() == InsertRequest(old(State()), conf, x, rq, now)
    {
      hide Linked, AddRb, HoleOk;
      InsertLinked(State(), conf, x, rq, now);
      CountInHole(State(), x, rq);
      ghost var s := CountIn(State(), x, rq);
      AddRbLinked(s, conf, x, now, [x]);
      rqQueued, nrSorted, all := rqQueued + 1, nrSorted + 1, all + {x};
      t := t[x := rq];
      qs := qs[rq.ioc := Counted(qs[rq.ioc], rq.sync, 1)];
      AddRqRb(x, now);
      qs := qs[rq.ioc := qs[rq.ioc].(fifo := qs[rq.ioc].fifo + [x])];
    }

    /** __cfq_forced_dispatch_cfqq. */
    method ForcedDispatchQueue(q: nat)
      requires Valid() && q in qs
      modifies this
      ensures Valid() && State() == DrainQueue(old(State()), conf, q)
    {
      hide Linked, DispatchInsert;
      DrainQueueEmpties(State(), conf, q);
      while qs[q].next.Some?
        invariant Valid() && q in qs && DrainQueue(State(), conf, q) == DrainQueue(old(State()), conf, q)
        decreases |qs[q].tree|
      {
        DispatchShrinks(State(), conf, q);
        DispatchRequest(qs[q].next.value);
      }
      v := v.(bug := v.bug || qs[q].fifo != []);
    }

    /** cfq_forced_dispatch, the whole of what elv_drain_elevator asks of CFQ. */
    method ForcedDispatch()
      requires Valid()
      modifies this
      ensures Valid() && State() == DrainAll(old(State()), conf)
      ensures nrSorted == rqQueued == v.busy == 0 && all == {} && !v.bug
      ensures forall q | q in qs :: qs[q].tree == qs[q].fifo == []
    {
      hide Linked, DrainQueue, RbFirst;
      ForcedDrains(State(), conf);
      FirstLinked(State());
      ghost var s := State();
      var (v1, first) := RbFirst(v);
      v := v1;
      while first.Some?
        invariant Valid() && (v, first) == RbFirst(s.v) && State() == s.(v := v) && Linked(s)
        invariant first.Some? ==> first.value in qs && qs[first.value].tree != []
        invariant DrainAll(s, conf) == DrainAll(old(State()), conf)
        decreases |s.all|
      {
        DrainQueueEmpties(State(), conf, first.value);
        ForcedDispatchQueue(first.value);
        s := State();
        FirstLinked(s);
        var (v2, next) := RbFirst(v);
        v, first := v2, next;
      }
      v := v.(bug := v.bug || v.busy != 0);
    }
  }
}
