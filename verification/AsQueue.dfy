/** struct as_data as block/as-iosched.c changes it, each operation against its meaning in As. */
module AsQueue {
  import opened SortList
  import opened AsCache
  import opened As

  class AsData {
    var t: Table
    var sync: Side
    var async: Side
    var c: Ctl
    var nrDispatched: nat
    var out: set<nat>
    var active: set<nat>

    function State(): St
      reads this
    {
      St(t, sync, async, c, nrDispatched, out, active)
    }

    method AnticWaitNext()
      modifies this`c
      ensures c == WaitForNext(old(c))
    {
      c := Flag(c, c.antic != Off && c.antic != WaitReq);
      c := c.(antic := WaitNext);
    }

    method AnticWaitReq()
      modifies this`c
      ensures c == WaitForReq(old(c))
    {
      c := Flag(c, c.antic == Finished);
      if c.antic == Off {
        if c.ioc == 0 || c.iocFinished {
          AnticWaitNext();
        } else {
          c := c.(antic := WaitReq);
        }
      }
    }

    method RemoveQueued(x: nat)
      requires x in t && Known(t, As.Dir(State(), t[x].sync).tree) && x in As.Dir(State(), t[x].sync).tree
      modifies this`sync, this`async
      ensures var d := t[x].sync; State() == PutDir(old(State()), d, SideRemove(t, As.Dir(old(State()), d), x))
    {
      var side := if t[x].sync then sync else async;
      if side.next == Some(x) {
        side := side.(next := FindNext(t, side.last, side.tree, x));
      }
      side := side.(fifo := Without(side.fifo, x), tree := Without(side.tree, x));
      if t[x].sync {
        sync := side;
      } else {
        async := side;
      }
    }

    /** The control part of as_move_to_dispatch. */
    method MoveControl(rq: Rq)
      modifies this`c
      ensures c == MoveCtl(old(c), rq)
    {
      c := AnticStop(c);
      c := c.(antic := Off);
      if rq.sync {
        c := c.(ioc := if rq.ioc != 0 then rq.ioc else c.ioc);
      } else {
        c := c.(ioc := 0, currentWriteCount := if c.currentWriteCount != 0 then c.currentWriteCount - 1 else 0);
      }
      c := c.(iocFinished := false);
    }

    /** The head moves to the end of x, and the cache is recomputed from there. */
    method MoveHead(x: nat)
      requires x in t && Known(t, As.Dir(State(), t[x].sync).tree) && x in As.Dir(State(), t[x].sync).tree
      modifies this`sync, this`async
      ensures var side, last := if t[x].sync then old(sync) else old(async), t[x].End();
              var moved := side.(last := last, next := FindNext(t, last, side.tree, x));
              if t[x].sync then sync == moved && async == old(async) else async == moved && sync == old(sync)
    {
      hide FindNext, Known;
      if t[x].sync {
        sync := sync.(last := t[x].End());
        sync := sync.(next := FindNext(t, sync.last, sync.tree, x));
      } else {
        async := async.(last := t[x].End());
        async := async.(next := FindNext(t, async.last, async.tree, x));
      }
    }

    /** as_move_to_dispatch, also while another request is out of the tree. */
    method MoveUnlinked(x: nat)
      requires x in t && Known(t, As.Dir(State(), t[x].sync).tree) && x in As.Dir(State(), t[x].sync).tree
      modifies this`sync, this`async, this`c, this`nrDispatched, this`out, this`active
      ensures var s, d := old(State()), t[x].sync;
              State() == PutDir(s.(c := MoveCtl(s.c, t[x]), nrDispatched := s.nrDispatched + 1,
                                   out := s.out + {x}, active := s.active - {x}),
                                d, SideMove(t, As.Dir(s, d), x))
    {
      hide FindNext, Without, SideRemove, Known, MoveCtl;
      MoveControl(t[x]);
      MoveHead(x);
      RemoveQueued(x);
      nrDispatched, out, active := nrDispatched + 1, out + {x}, active - {x};
    }

    method MoveToDispatch(x: nat)
      requires Linked(State()) && Queued(State(), x)
      modifies this
      ensures State() == Move(old(State()), x)
    {
      hide SideOk, Outstanding, SideMove, Known, Sorted, MoveCtl;
      TreeSorted(State(), t[x].sync);
      SortedKnown(t, As.Dir(State(), t[x].sync).tree);
      MoveUnlinked(x);
    }

    /** The loop of as_add_rq_rb. */
    method MoveAliases(d: bool, sector: nat)
      requires Linked(State())
      modifies this
      ensures State() == MoveAlias(old(State()), d, sector)
    {
      hide SideOk, Outstanding, Move;
      TreeSorted(State(), d);
      MoveAliasLinked(State(), d, sector);
      var alias := Find(t, (if d then sync else async).tree, sector);
      while alias.Some?
        invariant Known(t, As.Dir(State(), d).tree) && alias == Find(t, As.Dir(State(), d).tree, sector)
        invariant State() == if alias.Some? then old(State()) else MoveAlias(old(State()), d, sector)
        decreases alias.Some?
      {
        QueuedKnown(State(), d, alias.value);
        MoveToDispatch(alias.value);
        c := AnticStop(c);
        TreeSorted(State(), d);
        alias := Find(t, (if d then sync else async).tree, sector);
      }
    }

    /** as_add_request. */
    method AddRequest(x: nat, rq: Rq, stats: bool)
      requires Linked(State()) && x !in t
      modifies this
      ensures State() == Add(old(State()), x, rq, stats)
    {
      hide SideOk, Outstanding, MoveAlias, SideAdd;
      FreshLinked(State(), x, rq);
      t := t[x := rq];
      MoveAliasLinked(State(), rq.sync, rq.sector);
      MoveAliases(rq.sync, rq.sector);
      TreeSorted(State(), rq.sync);
      NextKnown(State(), rq.sync);
      if rq.sync {
        sync := SideAdd(t, sync, x);
      } else {
        async := SideAdd(t, async, x);
      }
      if c.antic == WaitReq || c.antic == WaitNext {
        c := Flag(c, c.ioc == 0);
        if CanBreak(State(), Some(x), stats) {
          c := AnticStop(c);
        }
      }
    }

    /** as_merged_request after n sectors were put in front of x: out of the tree and in again. */
    method MergedFront(x: nat, n: nat)
      requires Linked(State()) && Queued(State(), x) && n <= t[x].sector
      modifies this
      ensures State() == FrontMerge(old(State()), x, n)
    {
      hide SideOk, Outstanding, SideMove, Insert, Without, Find, MoveCtl;
      ghost var s := State();
      var d := t[x].sync;
      FrontAliasIs(s, x, n);
      TreeDir(s, d);
      QueuedKnown(s, d, x);
      KnownMore(s, d, FrontMerged(t, x, n));
      WithoutKnown(FrontMerged(t, x, n), As.Dir(s, d).tree, x);
      t := FrontMerged(t, x, n);
      SetTree(d, Without((if d then sync else async).tree, x));
      var alias := Find(t, (if d then sync else async).tree, t[x].sector);
      ghost var a, rest := alias, Without(As.Dir(s, d).tree, x);
      ghost var s1 := State();
      ghost var s2 := if a.None? then s1 else
        PutDir(s1.(c := AnticStop(MoveCtl(s.c, t[a.value])), nrDispatched := s.nrDispatched + 1,
                   out := s.out + {a.value}, active := s.active - {a.value}),
               d, SideMove(t, As.Dir(s, d).(tree := rest), a.value));
      RestSorted(s, x, n);
      while alias.Some?
        invariant State() == if alias.Some? then s1 else s2
        invariant (alias.Some? ==> alias == a) && Known(t, As.Dir(State(), d).tree)
        decreases alias.Some?
      {
        MoveUnlinked(alias.value);
        MovedTree(t, As.Dir(s, d).(tree := rest), alias.value);
        OneAtSector(t, rest, alias.value);
        c := AnticStop(c);
        alias := Find(t, (if d then sync else async).tree, t[x].sector);
      }
      SetTree(d, Insert(t, (if d then sync else async).tree, x));
    }

    method SetTree(d: bool, tree: seq<nat>)
      modifies this`sync, this`async
      ensures State() == PutDir(old(State()), d, As.Dir(old(State()), d).(tree := tree))
    {
      if d {
        sync := sync.(tree := tree);
      } else {
        async := async.(tree := tree);
      }
    }

    /** as_merged_requests, after the bios of y went to x. */
    method MergedRequests(x: nat, y: nat)
      requires Linked(State()) && Queued(State(), x) && Queued(State(), y) && x != y && t[x].sync == t[y].sync
      modifies this
      ensures State() == MergeRequests(old(State()), x, y)
    {
      hide SideOk, Outstanding, SideRemove, MergedFifo, MergedTable;
      QueuedKnown(State(), t[x].sync, x);
      QueuedKnown(State(), t[x].sync, y);
      MergedTableLinked(State(), x, y);
      var fifo := MergedFifo(t, (if t[x].sync then sync else async).fifo, x, y);
      ghost var d := t[x].sync;
      assert MergedTable(t, x, y)[y].sync == d by {
        MergedDirection(t, x, y);
      }
      t := MergedTable(t, x, y);
      TreeSorted(State(), d);
      if t[y].sync {
        sync := sync.(fifo := fifo);
      } else {
        async := async.(fifo := fifo);
      }
      RemoveQueued(y);
    }

    /** The batch bookkeeping of as_completed_request. */
    method BatchDone(rq: Rq, batch: nat, time: int)
      modifies this`c
      ensures c == BatchCompleted(old(c), nrDispatched, rq, batch, time)
    {
      hide WriteBatch;
      if c.changed && nrDispatched == 1 {
        c := c.(changed := false);
        if c.dir {
          c := c.(newBatch := true);
        }
      }
      c := Flag(c, nrDispatched == 0);
      if c.newBatch && c.dir == rq.sync {
        c := c.(newBatch := false,
                writeBatchCount := WriteBatch(c.writeBatchCount, c.currentWriteCount, c.idled, batch, time));
      }
    }

    method CompletedRequest(x: nat, batch: nat, time: int)
      requires Linked(State()) && x in active
      modifies this
      ensures State() == Complete(old(State()), x, batch, time)
    {
      hide SideOk, BatchCompleted;
      var rq := t[x];
      assert x in out;
      BatchDone(rq, batch, time);
      nrDispatched, out, active := nrDispatched - 1, out - {x}, active - {x};
      if c.ioc == rq.ioc && c.ioc != 0 {
        c := c.(iocFinished := true);
        if c.antic == WaitReq {
          AnticWaitNext();
        }
      }
    }

    /** From the label dispatch_request on, with the FIFO check before the label fifo_expired. */
    method IssueRequest(pick: nat, check: bool, e: Env) returns (done: bool)
      requires Linked(State()) && Queued(State(), pick)
      modifies this
      ensures (State(), done) == if check then Issue(old(State()), pick, e) else Finish(old(State()), pick)
    {
      hide SideOk, Move;
      var rq := pick;
      if check && e.fifoUpAgain && (if c.dir then sync else async).fifo != [] {
        FifoQueued(State(), c.dir);
        rq := (if c.dir then sync else async).fifo[0];
      }
      if c.changed {
        c := Flag(c, c.newBatch);
        if nrDispatched != 0 {
          return false;
        }
        if c.dir {
          c := c.(newBatch := true);
        }
        c := c.(changed := false);
      }
      MoveToDispatch(rq);
      return true;
    }

    /** No batch is running: a new one of reads or of writes. */
    method StartBatch(e: Env) returns (done: bool)
      requires Linked(State())
      modifies this
      ensures (State(), done) == SelectBatch(old(State()), e)
    {
      hide SideOk, Issue, Finish;
      var anyReads, anyWrites := sync.fifo != [], async.fifo != [];
      if anyReads && !(anyWrites && c.dir) {
        FifoQueued(State(), true);
        c := Flag(c, sync.tree == []);
        if !c.dir {
          c := Flag(c, c.newBatch);
          c := c.(changed := true);
        }
        c := c.(dir := true);
        done := IssueRequest(sync.fifo[0], true, e);
      } else if anyWrites {
        FifoQueued(State(), false);
        c := Flag(c, async.tree == []);
        if c.dir {
          c := c.(changed := true, newBatch := false);
        }
        c := c.(dir := false, currentWriteCount := c.writeBatchCount, idled := false);
        done := IssueRequest(async.fifo[0], true, e);
      } else {
        c := Flag(c, true);
        done := false;
      }
    }

    /** as_dispatch_request without force. */
    method DispatchRequest(e: Env) returns (done: bool)
      requires Linked(State())
      modifies this
      ensures (State(), done) == Dispatch(old(State()), e)
    {
      hide SideOk, SelectBatch, Issue, Finish, WaitForReq;
      var anyReads, anyWrites := sync.fifo != [], async.fifo != [];
      if !c.dir && !anyReads && (c.currentWriteCount == 0 || !anyWrites) {
        c := c.(idled := true);
      }
      if (!anyReads && !anyWrites) || c.antic == WaitReq || c.antic == WaitNext || c.changed {
        return false;
      }
      if !(anyReads && anyWrites && BatchExpired(c, e)) {
        var rq := (if c.dir then sync else async).next;
        if c.dir && e.anticipates {
          if e.fifoUp && sync.fifo != [] {
            FifoQueued(State(), true);
            done := IssueRequest(sync.fifo[0], false, e);
            return;
          }
          if c.ioc != 0 && c.antic != Finished && !CanBreak(State(), rq, e.stats) {
            AnticWaitReq();
            return false;
          }
        }
        if rq.Some? {
          NextQueued(State(), c.dir);
          done := IssueRequest(rq.value, true, e);
          return;
        }
      }
      done := StartBatch(e);
    }

    method DrainDirection(d: bool)
      requires Linked(State())
      modifies this
      ensures State() == DrainSide(old(State()), d)
    {
      hide SideOk, Outstanding, Move;
      while (if d then sync else async).next.Some?
        invariant Linked(State()) && DrainSide(State(), d) == DrainSide(old(State()), d)
        decreases |As.Dir(State(), d).tree|
      {
        MoveShrinks(State(), d);
        MoveToDispatch((if d then sync else async).next.value);
      }
    }

    /** as_dispatch_request with force. */
    method ForcedDispatch()
      requires Linked(State())
      modifies this
      ensures State() == Forced(old(State()))
      ensures old(Found(State())) <==> sync.tree == sync.fifo == [] && async.tree == async.fifo == []
      ensures old(Found(State())) ==> out == old(out) + Names(old(sync.tree)) + Names(old(async.tree))
    {
      hide Linked, DrainSide, Found;
      ForcedDrains(State());
      CtlLinked(State(), ResetCtl(c));
      c := c.(dir := true, changed := false, newBatch := false);
      DrainSideEmpties(State(), true);
      DrainDirection(true);
      DrainDirection(false);
    }
  }

  lemma MovedTree(t: Table, side: Side, x: nat)
    requires Known(t, side.tree) && x in side.tree && x in t
    ensures SideMove(t, side, x).tree == Without(side.tree, x)
  {
  }

  /** The tree without x does not see that x has changed. */
  lemma RestSorted(s: St, x: nat, n: nat)
    requires Linked(s) && Queued(s, x) && n <= s.t[x].sector
    ensures Sorted(FrontMerged(s.t, x, n), Without(As.Dir(s, s.t[x].sync).tree, x))
  {
    hide SideOk, Sorted;
    var d := s.t[x].sync;
    TreeSorted(s, d);
    WithoutSorted(s.t, As.Dir(s, d).tree, x);
    TreeDir(s, d);
    SortedFrame(s.t, FrontMerged(s.t, x, n), Without(As.Dir(s, d).tree, x));
  }

  lemma MergedDirection(t: Table, x: nat, y: nat)
    requires x in t && y in t
    ensures y in MergedTable(t, x, y) && MergedTable(t, x, y)[y].sync == t[y].sync
  {
  }

  lemma NextKnown(s: St, d: bool)
    requires Linked(s)
    ensures As.Dir(s, d).next.Some? ==> As.Dir(s, d).next.value in s.t
  {
  }
}
