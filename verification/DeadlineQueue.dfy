/** struct deadline_data as block/deadline-iosched.c changes it, each operation against its meaning in Deadline. */
module DeadlineQueue {
  import opened SortList
  import opened Deadline

  class DeadlineData {
    var t: Table
    var rd: Side
    var wr: Side
    var batching: nat
    var starved: nat
    var last: nat
    var nrSorted: int
    var now: int
    ghost var out: seq<nat>
    const conf: Conf

    ghost function State(): St
      reads this
    {
      St(t, rd, wr, batching, starved, last, nrSorted, now, out)
    }

    ghost predicate Valid()
      reads this
    {
      Linked(State())
    }

    constructor (conf: Conf)
      ensures Valid() && Fresh(State()) && this.conf == conf && t == map[]
    {
      this.conf := conf;
      t, rd, wr := map[], Side([], [], None), Side([], [], None);
      batching, starved, last, nrSorted, now, out := 0, 0, 0, 0, 0, [];
    }

    /** deadline_remove_request. */
    method RemoveRequest(x: nat)
      requires x in t && x in Deadline.Dir(State(), t[x].sync).tree
      modifies this`rd, this`wr
      ensures var d := t[x].sync; State() == PutDir(old(State()), d, Removed(Deadline.Dir(old(State()), d), x))
    {
      var side := if t[x].sync then rd else wr;
      side := side.(fifo := Without(side.fifo, x));
      if side.next == Some(x) {
        side := side.(next := Next(side.tree, x));
      }
      side := side.(tree := Without(side.tree, x));
      if t[x].sync {
        rd := side;
      } else {
        wr := side;
      }
    }

    /** deadline_move_request. */
    method MoveRequest(x: nat)
      requires x in t && x in Deadline.Dir(State(), t[x].sync).tree
      modifies this
      ensures State() == Move(old(State()), x)
    {
      hide Without, Next, Removed;
      rd, wr := rd.(next := None), wr.(next := None);
      if t[x].sync {
        rd := rd.(next := Next(rd.tree, x));
      } else {
        wr := wr.(next := Next(wr.tree, x));
      }
      last := t[x].End();
      RemoveRequest(x);
      out, nrSorted := out + [x], nrSorted - 1;
    }

    /** deadline_add_rq_rb. */
    method AddToTree(x: nat)
      requires x in t && LinkedBut(State(), t[x].sync, x)
      modifies this
      ensures Known(old(t), Deadline.Dir(old(State()), old(t)[x].sync).tree)
      ensures forall y | y in Deadline.Dir(old(State()), old(t)[x].sync).tree :: old(t)[y].sync == old(t)[x].sync
      ensures State() == AddRb(old(State()), x)
    {
      hide Move, SideOk, Insert;
      ghost var s, d := State(), t[x].sync;
      var alias := Find(t, (if t[x].sync then rd else wr).tree, t[x].sector);
      while alias.Some?
        invariant Known(t, Deadline.Dir(State(), d).tree) && t == old(t)
        invariant alias == Find(t, Deadline.Dir(State(), d).tree, t[x].sector)
        invariant if alias.Some? then State() == s
                  else State() == match Find(s.t, Deadline.Dir(s, d).tree, s.t[x].sector)
                                  case None => s
                                  case Some(a) => Move(s, a)
        decreases alias.Some?
      {
        SortedDistinct(s.t, Deadline.Dir(s, d).tree);
        MoveFields(s, alias.value);
        OneAtSector(s.t, Deadline.Dir(s, d).tree, alias.value);
        MoveRequest(alias.value);
        alias := Find(t, (if t[x].sync then rd else wr).tree, t[x].sector);
      }
      if t[x].sync {
        rd := rd.(tree := Insert(t, rd.tree, x));
      } else {
        wr := wr.(tree := Insert(t, wr.tree, x));
      }
    }

    /** deadline_add_request, with elv_insert's count. */
    method AddRequest(x: nat, rq: Rq)
      requires Valid() && x !in t
      modifies this
      ensures Valid() && State() == Add(old(State()), conf, x, rq)
    {
      hide SideOk, SideBut, AddRb;
      AddLinked(State(), conf, x, rq);
      FreshBut(State(), x, rq.(expires := now + conf.Expire(rq.sync)));
      nrSorted := nrSorted + 1;
      t := t[x := rq.(expires := now + conf.Expire(rq.sync))];
      AddToTree(x);
      if rq.sync {
        rd := rd.(fifo := rd.fifo + [x]);
      } else {
        wr := wr.(fifo := wr.fifo + [x]);
      }
    }

    /** A bio of n sectors in front of x: deadline_merged_request. */
    method MergedFront(x: nat, n: nat)
      requires Valid() && Queued(State(), x) && n <= t[x].sector
      modifies this
      ensures Valid() && State() == FrontMerge(old(State()), x, n)
    {
      hide SideOk, SideBut, AddRb, Without;
      FrontMergeLinked(State(), x, n);
      LeavesTree(State(), x, n);
      t := t[x := t[x].(sector := t[x].sector - n, nr := t[x].nr + n)];
      if t[x].sync {
        rd := rd.(tree := Without(rd.tree, x));
      } else {
        wr := wr.(tree := Without(wr.tree, x));
      }
      AddToTree(x);
    }

    /** deadline_merged_requests, after the bios of y went to x. */
    method MergedRequests(x: nat, y: nat)
      requires Valid() && Queued(State(), x) && Queued(State(), y) && x != y && t[x].sync == t[y].sync
      modifies this
      ensures Valid() && State() == MergeRequests(old(State()), x, y)
    {
      hide SideOk, Removed, MergedFifo;
      MergeLinked(State(), x, y);
      QueuedKnown(State(), t[x].sync, x);
      QueuedKnown(State(), t[x].sync, y);
      var fifo := MergedFifo(t, (if t[x].sync then rd else wr).fifo, x, y);
      t := MergedTable(t, x, y);
      if t[x].sync {
        rd := rd.(fifo := fifo);
      } else {
        wr := wr.(fifo := fifo);
      }
      RemoveRequest(y);
      nrSorted := nrSorted - 1;
    }

    /** deadline_dispatch_requests. */
    method DispatchRequests() returns (done: bool)
      requires Valid()
      modifies this
      ensures Valid() && (State(), done) == Dispatch(old(State()), conf)
      ensures done <==> old(nrSorted) > 0
      ensures nrSorted == if done then old(nrSorted) - 1 else 0
    {
      hide SideOk, Move;
      ghost var s := State();
      ghost var x := DispatchShape(s, conf);
      Counted(s);
      var anyReads, anyWrites := rd.fifo != [], wr.fifo != [];
      var rq := if wr.next.Some? then wr.next else rd.next;
      if !(rq.Some? && batching < conf.fifoBatch) {
        var dir: bool;
        if anyReads && !(anyWrites && starved >= conf.writesStarved) {
          if anyWrites {
            starved := starved + 1;
          }
          dir := true;
        } else if anyWrites {
          starved := 0;
          dir := false;
        } else {
          return false;
        }
        var side := if dir then rd else wr;
        HeadKnown(State(), dir);
        if now > t[side.fifo[0]].expires || side.next.None? {
          rq := Some(side.fifo[0]);
        } else {
          rq := side.next;
        }
        batching := 0;
      } else {
        NextQueued(s, wr.next.None?);
      }
      batching := batching + 1;
      MoveRequest(rq.value);
      return true;
    }

    /** elv_drain_elevator: it ends, and nothing is left in any index. */
    method DrainElevator()
      requires Valid()
      modifies this
      ensures Valid() && nrSorted == 0 && rd.tree == rd.fifo == [] && wr.tree == wr.fifo == []
    {
      hide SideOk, Dispatch;
      var more := true;
      while more
        invariant Valid() && (more || nrSorted == 0)
        decreases nrSorted, more
      {
        Counted(State());
        more := DispatchRequests();
      }
      FifoFull(State(), true);
      FifoFull(State(), false);
    }
  }

  lemma Counted(s: St)
    requires Linked(s)
    ensures s.nrSorted >= 0 && (s.nrSorted == 0 <==> s.rd.fifo == [] && s.wr.fifo == [])
  {
    hide SideOk;
    FifoFull(s, true);
    FifoFull(s, false);
  }

  lemma HeadKnown(s: St, d: bool)
    requires Linked(s) && Deadline.Dir(s, d).fifo != []
    ensures Queued(s, Deadline.Dir(s, d).fifo[0])
    ensures Deadline.Dir(s, d).next.Some? ==> Queued(s, Deadline.Dir(s, d).next.value)
  {
    assert Deadline.Dir(s, d).fifo[0] in Deadline.Dir(s, d).fifo;
  }
}
