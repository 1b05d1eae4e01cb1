/**
 What as_dispatch_request decides, told from the fields before the call, and what that means for a process the
 scheduler waits for.
 */
module AsDecision {
  import opened SortList
  import opened AsCache
  import opened As

  // ---------------------------------------------------------------- when it anticipates

  /** A context has a request queued, or dispatched and not yet taken by the driver. */
  ghost predicate HasMore(s: St, ioc: nat) {
    exists y :: y in s.t && s.t[y].ioc == ioc && (y in s.sync.tree || y in s.async.tree || (y in s.out && y !in s.active))
  }

  lemma BreaksIff(s: St, d: bool, stats: bool)
    requires Linked(s)
    ensures CanBreak(s, Dir(s, d).next, stats) <==> HasMore(s, s.c.ioc) || stats
  {
    hide Sorted, Distinct;
    NextIsKnown(s, d);
    if HasQueued(s, s.c.ioc) {
      var y :| y in s.t && (y in s.sync.tree || y in s.async.tree) && s.t[y].ioc == s.c.ioc;
    }
    if HasDispatched(s, s.c.ioc) {
      var y :| y in s.t && y in s.out && y !in s.active && s.t[y].ioc == s.c.ioc;
    }
  }

  lemma NextIsKnown(s: St, d: bool)
    requires Linked(s)
    ensures Dir(s, d).next.Some? ==> Dir(s, d).next.value in s.t && Dir(s, d).next.value in Dir(s, d).tree
  {
  }

  /**
   as_dispatch_request starts to anticipate exactly if there is work, a batch of reads that is not being
   replaced and whose time is not up with writes waiting, antic_expire is set, no read has expired, there is a
   process to wait for which has no request left, it has not just been waited for, and nothing else speaks against it.
   Then nothing is dispatched, and the wait begins with the next request if the last one is done.
   */
  lemma AnticipatesIff(s: St, e: Env)
    requires Linked(s) && !Waiting(s.c.antic)
    ensures var (r, done) := Dispatch(s, e);
            && (Waiting(r.c.antic) <==>
                  && (s.sync.fifo != [] || s.async.fifo != []) && s.c.dir && !s.c.changed
                  && !(s.sync.fifo != [] && s.async.fifo != [] && !s.c.newBatch && e.timeUp)
                  && e.anticipates && !(e.fifoUp && s.sync.fifo != [])
                  && s.c.ioc != 0 && s.c.antic == Off && !HasMore(s, s.c.ioc) && !e.stats)
            && (Waiting(r.c.antic) ==>
                  !done && r == s.(c := s.c.(antic := if s.c.iocFinished then WaitNext else WaitReq)))
  {
    hide SideOk, Issue, Finish, SelectBatch, CanBreak, HasMore;
    var c := Idle(s.c, s.sync.fifo != [], s.async.fifo != []);
    var s0 := s.(c := c);
    CtlLinked(s, c);
    BreaksIff(s0, c.dir, e.stats);
    SameMore(s, s0);
    if s0.sync.fifo != [] {
      FifoQueued(s0, true);
      FinishOff(s0, s0.sync.fifo[0]);
    }
    if Dir(s0, c.dir).next.Some? {
      NextQueued(s0, c.dir);
      IssueOff(s0, Dir(s0, c.dir).next.value, e);
    }
    SelectOff(s0, e);
  }

  lemma SameMore(s: St, r: St)
    requires r == s.(c := r.c)
    ensures forall ioc :: HasMore(r, ioc) == HasMore(s, ioc)
  {
  }

  lemma FinishOff(s: St, rq: nat)
    requires Linked(s) && Queued(s, rq) && !Waiting(s.c.antic)
    ensures !Waiting(Finish(s, rq).0.c.antic)
  {
    hide SideOk, Move;
    MoveOff(s, rq);
    var c := Flag(s.c, s.c.newBatch);
    MoveOff(s.(c := c.(newBatch := c.newBatch || c.dir, changed := false)), rq);
  }

  lemma MoveOff(s: St, x: nat)
    requires Linked(s) && Queued(s, x)
    ensures Move(s, x).c.antic == Off
  {
    hide SideOk, SideMove;
  }

  lemma IssueOff(s: St, rq: nat, e: Env)
    requires Linked(s) && Queued(s, rq) && !Waiting(s.c.antic)
    ensures !Waiting(Issue(s, rq, e).0.c.antic)
  {
    hide SideOk, Finish;
    FinishOff(s, rq);
    if Dir(s, s.c.dir).fifo != [] {
      FifoQueued(s, s.c.dir);
      FinishOff(s, Dir(s, s.c.dir).fifo[0]);
    }
  }

  lemma SelectOff(s: St, e: Env)
    requires Linked(s) && !Waiting(s.c.antic)
    ensures !Waiting(SelectBatch(s, e).0.c.antic)
  {
    hide SideOk, Issue;
    if s.sync.fifo != [] {
      FifoQueued(s, true);
      IssueOff(s.(c := StartReads(Flag(s.c, s.sync.tree == []))), s.sync.fifo[0], e);
    }
    if s.async.fifo != [] {
      FifoQueued(s, false);
      IssueOff(s.(c := StartWrites(Flag(s.c, s.async.tree == []))), s.async.fifo[0], e);
    }
  }

  // -------------------------------------------------------------- what it dispatches

  /**
   What is left by a call that settles on request x of direction dir.  If the direction changes, x goes out only
   when nothing of the old batch is outstanding, and a batch of reads is new then; what goes out ends the anticipation and
   names the process to wait for next, and a write uses up one of the writes of its batch.
   */
  ghost predicate Settles(s: St, dir: bool, changes: bool, newBatch: bool, writes: nat, idled: bool, x: nat, r: St, done: bool) {
    && (done <==> !changes || s.nrDispatched == 0)
    && r.out == (if done then s.out + {x} else s.out)
    && r.c.dir == dir && r.c.changed == !done && r.c.newBatch == (newBatch || (changes && dir && done))
    && r.c.currentWriteCount == (if done && !dir && writes > 0 then writes - 1 else writes)
    && r.c.idled == idled && r.c.writeBatchCount == s.c.writeBatchCount
    && (done ==>
          && x in s.t && r.c.antic == Off && !r.c.iocFinished
          && r.c.ioc == if !dir then 0 else if s.t[x].ioc != 0 then s.t[x].ioc else s.c.ioc)
    && (!done ==>
          && r.c.antic == s.c.antic && r.c.ioc == s.c.ioc && r.c.iocFinished == s.c.iocFinished
          && r.sync == s.sync && r.async == s.async)
  }

  lemma FinishSettles(s: St, x: nat)
    requires Linked(s) && Queued(s, x) && s.t[x].sync == s.c.dir
    ensures var (r, done) := Finish(s, x);
            Settles(s, s.c.dir, s.c.changed, s.c.newBatch, s.c.currentWriteCount, s.c.idled, x, r, done)
  {
    hide SideOk, SideMove;
  }

  lemma IssueSettles(s: St, x: nat, e: Env)
    requires Linked(s) && Queued(s, x) && s.t[x].sync == s.c.dir
    ensures var (r, done) := Issue(s, x, e);
            var fifo := Dir(s, s.c.dir).fifo;
            Settles(s, s.c.dir, s.c.changed, s.c.newBatch, s.c.currentWriteCount, s.c.idled,
                    if e.fifoUpAgain && fifo != [] then fifo[0] else x, r, done)
  {
    hide SideOk, Finish, Settles;
    if e.fifoUpAgain && Dir(s, s.c.dir).fifo != [] {
      FifoQueued(s, s.c.dir);
      FinishSettles(s, Dir(s, s.c.dir).fifo[0]);
    } else {
      FinishSettles(s, x);
    }
  }

  /** The control fields that a new batch has set already do not matter to what the call leaves. */
  lemma SettlesFrom(s: St, c: Ctl, dir: bool, changes: bool, newBatch: bool, writes: nat, idled: bool, x: nat, r: St, done: bool)
    requires Settles(s.(c := c), dir, changes, newBatch, writes, idled, x, r, done)
    requires c.writeBatchCount == s.c.writeBatchCount && c.antic == s.c.antic && c.ioc == s.c.ioc && c.iocFinished == s.c.iocFinished
    ensures Settles(s, dir, changes, newBatch, writes, idled, x, r, done)
  {
  }

  /** A new batch of reads, or of writes, begins with the oldest request; reads come after writes, and first of all. */
  lemma SelectSettles(s: St, e: Env)
    requires Linked(s) && !s.c.changed && (s.sync.fifo != [] || s.async.fifo != [])
    ensures var (r, done) := SelectBatch(s, e);
            if s.sync.fifo != [] && (s.async.fifo == [] || !s.c.dir) then
              Settles(s, true, !s.c.dir, s.c.newBatch, s.c.currentWriteCount, s.c.idled, s.sync.fifo[0], r, done)
            else
              && s.async.fifo != []
              && Settles(s, false, s.c.dir, s.c.newBatch && !s.c.dir, s.c.writeBatchCount, false, s.async.fifo[0], r, done)
  {
    hide SideOk, Issue, Settles;
    if s.sync.fifo != [] && (s.async.fifo == [] || !s.c.dir) {
      FifoQueued(s, true);
      var c := StartReads(Flag(s.c, s.sync.tree == []));
      IssueSettles(s.(c := c), s.sync.fifo[0], e);
      SettlesFrom(s, c, true, c.changed, c.newBatch, c.currentWriteCount, c.idled, s.sync.fifo[0],
                  SelectBatch(s, e).0, SelectBatch(s, e).1);
    } else {
      FifoQueued(s, false);
      var c := StartWrites(Flag(s.c, s.async.tree == []));
      IssueSettles(s.(c := c), s.async.fifo[0], e);
      SettlesFrom(s, c, false, c.changed, c.newBatch, c.currentWriteCount, c.idled, s.async.fifo[0],
                  SelectBatch(s, e).0, SelectBatch(s, e).1);
    }
  }

  /** Reads and writes compete, and the batch has used up its time or its writes. */
  ghost predicate BatchOver(s: St, e: Env) {
    s.sync.fifo != [] && s.async.fifo != [] && !s.c.newBatch && (e.timeUp || (!s.c.dir && s.c.currentWriteCount == 0))
  }

  /** A batch of reads goes on, but its oldest read has expired. */
  ghost predicate ReadExpired(s: St, e: Env) {
    s.c.dir && e.anticipates && e.fifoUp && s.sync.fifo != []
  }

  /** There is work, and nothing that stops it. */
  ghost predicate Works(s: St) {
    !Waiting(s.c.antic) && !s.c.changed && (s.sync.fifo != [] || s.async.fifo != [])
  }

  /** A batch of writes without competition cannot be timed. */
  ghost predicate Idled(s: St) {
    s.c.idled || (!s.c.dir && s.sync.fifo == [] && (s.c.currentWriteCount == 0 || s.async.fifo == []))
  }

  lemma ExpiredDecides(s: St, e: Env)
    requires Linked(s) && Works(s) && !BatchOver(s, e) && ReadExpired(s, e)
    ensures var (r, done) := Dispatch(s, e);
            Settles(s, true, false, s.c.newBatch, s.c.currentWriteCount, Idled(s), s.sync.fifo[0], r, done)
  {
    hide SideOk, Finish, Settles;
    var c := Idle(s.c, s.sync.fifo != [], s.async.fifo != []);
    var s0 := s.(c := c);
    FifoQueued(s0, true);
    FinishSettles(s0, s0.sync.fifo[0]);
    SettlesFrom(s, c, c.dir, c.changed, c.newBatch, c.currentWriteCount, c.idled, s.sync.fifo[0],
                Dispatch(s, e).0, Dispatch(s, e).1);
  }

  lemma IdleIs(s: St)
    ensures Idle(s.c, s.sync.fifo != [], s.async.fifo != []) == s.c.(idled := Idled(s))
  {
  }

  lemma NextGoes(s: St, e: Env)
    requires Linked(s) && Works(s) && !BatchOver(s, e) && !ReadExpired(s, e) && Dir(s, s.c.dir).next.Some?
    requires !Waiting(Dispatch(s, e).0.c.antic)
    ensures var s0, x := s.(c := Idle(s.c, s.sync.fifo != [], s.async.fifo != [])), Dir(s, s.c.dir).next.value;
            Linked(s0) && Queued(s0, x) && Dispatch(s, e) == Issue(s0, x, e)
  {
    hide SideOk, Issue, CanBreak, SelectBatch, Finish, Outstanding;
    CtlLinked(s, Idle(s.c, s.sync.fifo != [], s.async.fifo != []));
    NextQueued(s.(c := Idle(s.c, s.sync.fifo != [], s.async.fifo != [])), s.c.dir);
  }

  lemma NextDecides(s: St, e: Env)
    requires Linked(s) && Works(s) && !BatchOver(s, e) && !ReadExpired(s, e) && Dir(s, s.c.dir).next.Some?
    requires !Waiting(Dispatch(s, e).0.c.antic)
    ensures var (r, done) := Dispatch(s, e);
            var side := Dir(s, s.c.dir);
            Settles(s, s.c.dir, false, s.c.newBatch, s.c.currentWriteCount, Idled(s),
                    if e.fifoUpAgain && side.fifo != [] then side.fifo[0] else side.next.value, r, done)
  {
    NextGoes(s, e);
    IdleIs(s);
    hide Linked, Issue, Settles, Dispatch, Idle, Idled, BatchOver, ReadExpired;
    var c := Idle(s.c, s.sync.fifo != [], s.async.fifo != []);
    var s0 := s.(c := c);
    CtlLinked(s, c);
    NextQueued(s0, c.dir);
    var x, fifo := Dir(s, s.c.dir).next.value, Dir(s, s.c.dir).fifo;
    IssueSettles(s0, x, e);
    SettlesFrom(s, c, c.dir, c.changed, c.newBatch, c.currentWriteCount, c.idled,
                if e.fifoUpAgain && fifo != [] then fifo[0] else x, Dispatch(s, e).0, Dispatch(s, e).1);
  }

  lemma NewBatchDecides(s: St, e: Env)
    requires Linked(s) && Works(s) && (BatchOver(s, e) || (!ReadExpired(s, e) && Dir(s, s.c.dir).next.None?))
    requires !Waiting(Dispatch(s, e).0.c.antic)
    ensures var (r, done) := Dispatch(s, e);
            if s.sync.fifo != [] && (s.async.fifo == [] || !s.c.dir) then
              Settles(s, true, !s.c.dir, s.c.newBatch, s.c.currentWriteCount, Idled(s), s.sync.fifo[0], r, done)
            else
              && s.async.fifo != []
              && Settles(s, false, s.c.dir, s.c.newBatch && !s.c.dir, s.c.writeBatchCount, false, s.async.fifo[0], r, done)
  {
    hide SideOk, SelectBatch, Settles, CanBreak, Finish;
    var c := Idle(s.c, s.sync.fifo != [], s.async.fifo != []);
    var s0 := s.(c := c);
    var (r, done) := Dispatch(s, e);
    SelectSettles(s0, e);
    if s.sync.fifo != [] && (s.async.fifo == [] || !s.c.dir) {
      SettlesFrom(s, c, true, !c.dir, c.newBatch, c.currentWriteCount, c.idled, s.sync.fifo[0], r, done);
    } else {
      SettlesFrom(s, c, false, c.dir, c.newBatch && !c.dir, c.writeBatchCount, false, s.async.fifo[0], r, done);
    }
  }

  /**
   A call with work to do, that does not end in anticipation: the batch goes on with the oldest request if one has
   expired, with next_rq if not; or a new batch begins with the oldest of its direction, of writes after reads
   and of reads after writes if there are both.
   */
  lemma Decides(s: St, e: Env)
    requires Linked(s) && Works(s)
    ensures var (r, done) := Dispatch(s, e);
            var side := Dir(s, s.c.dir);
            !Waiting(r.c.antic) ==>
              if !BatchOver(s, e) && ReadExpired(s, e) then
                Settles(s, true, false, s.c.newBatch, s.c.currentWriteCount, Idled(s), s.sync.fifo[0], r, done)
              else if !BatchOver(s, e) && side.next.Some? then
                Settles(s, s.c.dir, false, s.c.newBatch, s.c.currentWriteCount, Idled(s),
                        if e.fifoUpAgain && side.fifo != [] then side.fifo[0] else side.next.value, r, done)
              else if s.sync.fifo != [] && (s.async.fifo == [] || !s.c.dir) then
                Settles(s, true, !s.c.dir, s.c.newBatch, s.c.currentWriteCount, Idled(s), s.sync.fifo[0], r, done)
              else
                && s.async.fifo != []
                && Settles(s, false, s.c.dir, s.c.newBatch && !s.c.dir, s.c.writeBatchCount, false, s.async.fifo[0], r, done)
  {
    hide Linked, Dispatch, Settles, Works, BatchOver, Idled;
    if !Waiting(Dispatch(s, e).0.c.antic) {
      if !BatchOver(s, e) && ReadExpired(s, e) {
        ExpiredDecides(s, e);
      } else if !BatchOver(s, e) && Dir(s, s.c.dir).next.Some? {
        NextDecides(s, e);
      } else {
        NewBatchDecides(s, e);
      }
    }
  }

  // ---------------------------------------------------------- who is waited for waits for nobody

  /** While the scheduler waits for a process, no request of that process is queued. */
  ghost predicate Awaited(s: St) {
    Waiting(s.c.antic) ==> !HasQueued(s, s.c.ioc)
  }

  lemma AwaitedFrame(s: St, r: St)
    requires Awaited(s) && (Waiting(r.c.antic) ==> Waiting(s.c.antic) && r.c.ioc == s.c.ioc)
    requires forall y | y in r.sync.tree || y in r.async.tree :: y in s.sync.tree || y in s.async.tree
    requires forall y | y in r.t && (y in r.sync.tree || y in r.async.tree) :: y in s.t && s.t[y].ioc == r.t[y].ioc
    ensures Awaited(r)
  {
  }

  lemma AddAwaited(s: St, x: nat, rq: Rq, stats: bool)
    requires Linked(s) && x !in s.t
    ensures Awaited(Add(s, x, rq, stats))
  {
    hide Linked, Enqueue, HasDispatched;
    var s1, r := Enqueue(s, x, rq), Add(s, x, rq, stats);
    assert HasQueued(r, r.c.ioc) ==> HasQueued(s1, r.c.ioc);
  }

  lemma DispatchAwaited(s: St, e: Env)
    requires Linked(s) && Awaited(s)
    ensures Awaited(Dispatch(s, e).0)
  {
    hide SideOk, Issue, Finish, SelectBatch, CanBreak;
    var r := Dispatch(s, e).0;
    if Waiting(s.c.antic) {
      AwaitedFrame(s, r);
    } else {
      AnticipatesIff(s, e);
      assert HasQueued(r, r.c.ioc) && Waiting(r.c.antic) ==> HasMore(s, s.c.ioc);
    }
  }

  lemma {:induction false} DrainSideOff(s: St, d: bool)
    requires Linked(s)
    ensures var r := DrainSide(s, d); if Dir(s, d).next.None? then r == s else r.c.antic == Off
    decreases |Dir(s, d).tree|
  {
    hide Linked, SideMove;
    if Dir(s, d).next.Some? {
      MoveShrinks(s, d);
      DrainSideOff(Move(s, Dir(s, d).next.value), d);
    }
  }

  lemma ForcedAwaited(s: St)
    requires Linked(s) && Awaited(s)
    ensures Awaited(Forced(s))
  {
    hide SideOk, DrainSide, Awaited;
    var s1 := s.(c := ResetCtl(s.c));
    CtlLinked(s, s1.c);
    DrainSideEmpties(s1, true);
    DrainSideOff(s1, true);
    DrainSideOff(DrainSide(s1, true), false);
    if s.sync.next.None? && s.async.next.None? {
      AwaitedFrame(s, Forced(s));
    } else {
      assert Forced(s).c.antic == Off;
      OffAwaits(Forced(s));
    }
  }

  lemma OffAwaits(s: St)
    requires !Waiting(s.c.antic)
    ensures Awaited(s)
  {
  }

  lemma FrontMergeAwaited(s: St, x: nat, n: nat)
    requires Linked(s) && Awaited(s) && Queued(s, x) && n <= s.t[x].sector
    ensures Awaited(FrontMerge(s, x, n))
  {
    hide SideOk, FrontMerge, Awaited, FrontAlias;
    var r, d := FrontMerge(s, x, n), s.t[x].sync;
    FrontMergeLinked(s, x, n);
    if FrontAlias(s, x, n).None? {
      assert forall y :: y in Dir(r, d).tree <==> y in Dir(s, d).tree;
      AwaitedFrame(s, r);
    } else {
      OffAwaits(r);
    }
  }

  lemma MergeAwaited(s: St, x: nat, y: nat)
    requires Linked(s) && Awaited(s) && Queued(s, x) && Queued(s, y) && x != y && s.t[x].sync == s.t[y].sync
    ensures Awaited(MergeRequests(s, x, y))
  {
    hide SideOk, Awaited, SideRemove, MergedFifo;
    var d, t := s.t[x].sync, MergedTable(s.t, x, y);
    KnownMore(s, d, t);
    QueuedKnown(s, d, x);
    QueuedKnown(s, d, y);
    var side := Dir(s, d).(fifo := MergedFifo(s.t, Dir(s, d).fifo, x, y));
    RemovedNames(t, side, y);
    AwaitedFrame(s, MergeRequests(s, x, y));
  }

  lemma StepAwaited(s: St, step: Step)
    requires Linked(s) && Enabled(s, step) && Awaited(s)
    ensures Awaited(Apply(s, step))
  {
    hide Linked, Add, Dispatch, FrontMerge, MergeRequests, Forced, Awaited, BatchCompleted, HasQueued;
    match step {
      case AddStep(x, rq, stats) => AddAwaited(s, x, rq, stats);
      case DispatchStep(e) => DispatchAwaited(s, e);
      case ForcedStep => ForcedAwaited(s);
      case ActivateStep(x) => AwaitedFrame(s, Apply(s, step));
      case DeactivateStep(x) => AwaitedFrame(s, Apply(s, step));
      case CompleteStep(x, batch, time) => CompleteAwaited(s, x, batch, time);
      case BackMergeStep(x, n) => AwaitedFrame(s, Apply(s, step));
      case FrontMergeStep(x, n) => FrontMergeAwaited(s, x, n);
      case MergeStep(x, y) => MergeAwaited(s, x, y);
      case TimeoutStep => OffAwaits(Apply(s, step));
    }
  }

  lemma CompleteAwaited(s: St, x: nat, batch: nat, time: int)
    requires Linked(s) && Awaited(s) && x in s.active
    ensures Awaited(Complete(s, x, batch, time))
  {
    hide SideOk, Awaited, BatchCompleted;
    BatchKeepsAntic(s.c, s.nrDispatched, s.t[x], batch, time);
    AwaitedFrame(s, Complete(s, x, batch, time));
  }

  lemma BatchKeepsAntic(c: Ctl, nr: nat, rq: Rq, batch: nat, time: int)
    ensures var r := BatchCompleted(c, nr, rq, batch, time); r.antic == c.antic && r.ioc == c.ioc && r.iocFinished == c.iocFinished
  {
    hide WriteBatch;
  }

  lemma {:induction false} RunAwaited(s: St, steps: seq<Step>, r: St)
    requires Linked(s) && Awaited(s) && Runs(Any, s, steps, r)
    ensures Linked(r) && Awaited(r)
    decreases |steps|
  {
    hide Linked, Apply, Enabled, Awaited;
    if steps != [] {
      StepLinked(s, steps[0]);
      StepAwaited(s, steps[0]);
      RunAwaited(Apply(s, steps[0]), steps[1..], r);
    }
  }

  /**
   In every run: a queued request of the process that would be waited for is never held back by anticipation;
   the scheduler is not waiting, and as_dispatch_request does not start to.
   */
  lemma NeverHeldBack(s: St, steps: seq<Step>, r: St, x: nat, e: Env)
    requires Fresh(s) && Runs(Any, s, steps, r)
    requires x in r.t && (x in r.sync.tree || x in r.async.tree) && r.t[x].ioc == r.c.ioc
    ensures !Waiting(r.c.antic) && Linked(r) && !Waiting(Dispatch(r, e).0.c.antic)
  {
    hide Dispatch, Linked;
    FreshIsFine(s);
    RunAwaited(s, steps, r);
    assert HasQueued(r, r.c.ioc) && HasMore(r, r.c.ioc);
    AnticipatesIff(r, e);
  }

  // ------------------------------------------------------------- arrivals and completions

  /**
   A request comes while the scheduler waits, at a sector of its direction where none is queued: the wait is over
   if and only if it is of the process waited for, or that process has others, or the clock or the statistics say so.
   */
  lemma NewcomerBreaks(s: St, x: nat, rq: Rq, stats: bool)
    requires Linked(s) && x !in s.t && Waiting(s.c.antic)
    requires forall y | y in Dir(s, rq.sync).tree :: y in s.t && s.t[y].sector != rq.sector
    ensures Add(s, x, rq, stats).c.antic == if rq.ioc == s.c.ioc || HasMore(s, s.c.ioc) || stats then Finished else s.c.antic
  {
    hide SideOk, Enqueue;
    NewcomerJoins(s, x, rq);
    hide Linked;
    var s1 := Enqueue(s, x, rq);
    assert CanBreak(s1, Some(x), stats) <==> rq.ioc == s.c.ioc || HasMore(s, s.c.ioc) || stats by {
      MoreJoined(s, s1, x, rq);
    }
  }

  lemma NewcomerJoins(s: St, x: nat, rq: Rq)
    requires Linked(s) && x !in s.t && forall y | y in Dir(s, rq.sync).tree :: y in s.t && s.t[y].sector != rq.sector
    ensures var s1 := Enqueue(s, x, rq);
            && s1.t == s.t[x := rq] && s1.c == s.c && s1.out == s.out && s1.active == s.active
            && Dir(s1, !rq.sync) == Dir(s, !rq.sync)
            && forall y :: y in Dir(s1, rq.sync).tree <==> y in Dir(s, rq.sync).tree || y == x
  {
    hide SideOk, Outstanding, SideAdd;
    var s0 := s.(t := s.t[x := rq]);
    FreshLinked(s, x, rq);
    TreeSorted(s0, rq.sync);
    FindsNone(s0.t, Dir(s, rq.sync).tree, rq.sector);
    SideAddNames(s0.t, Dir(s, rq.sync), x);
  }

  lemma FindsNone(t: Table, l: seq<nat>, sector: nat)
    requires Known(t, l) && forall y | y in l :: y in t && t[y].sector != sector
    ensures Find(t, l, sector).None?
  {
  }

  lemma MoreJoined(s: St, s1: St, x: nat, rq: Rq)
    requires x !in s.t && s1.t == s.t[x := rq] && s1.c == s.c && s1.out == s.out && s1.active == s.active
    requires x in s1.sync.tree || x in s1.async.tree
    requires forall y | y != x :: (y in s1.sync.tree || y in s1.async.tree) <==> (y in s.sync.tree || y in s.async.tree)
    ensures forall stats :: CanBreak(s1, Some(x), stats) <==> rq.ioc == s.c.ioc || HasMore(s, s.c.ioc) || stats
  {
    var ioc := s.c.ioc;
    if HasQueued(s1, ioc) && rq.ioc != ioc {
      var y :| y in s1.t && (y in s1.sync.tree || y in s1.async.tree) && s1.t[y].ioc == ioc;
      assert y in s.t && s.t[y].ioc == ioc;
    }
    if HasDispatched(s1, ioc) && rq.ioc != ioc {
      var y :| y in s1.t && y in s1.out && y !in s1.active && s1.t[y].ioc == ioc;
      assert y in s.t && s.t[y].ioc == ioc;
    }
    if HasMore(s, ioc) {
      var y :| y in s.t && s.t[y].ioc == ioc && (y in s.sync.tree || y in s.async.tree || (y in s.out && y !in s.active));
      assert y in s1.t && s1.t[y].ioc == ioc;
    }
  }

  /**
   A request completes: the last one of the old batch starts the batch that waits for it; the first of a new batch of reads
   makes it an ordinary one, and is when the write batches are resized; and if it is of the process waited
   for, the wait is for the next request from now on.
   */
  lemma Completes(s: St, x: nat, batch: nat, time: int)
    requires Linked(s) && x in s.active
    ensures var r, rq := Complete(s, x, batch, time), s.t[x];
            var starts := s.c.changed && |s.out| == 1;
            var isNew := s.c.newBatch || (starts && s.c.dir);
            && r.out == s.out - {x} && r.nrDispatched == |r.out|
            && r.c.dir == s.c.dir && r.c.changed == (s.c.changed && |s.out| != 1)
            && r.c.newBatch == (isNew && s.c.dir != rq.sync)
            && (!(isNew && s.c.dir == rq.sync) ==> r.c.writeBatchCount == s.c.writeBatchCount)
            && r.c.ioc == s.c.ioc && r.c.iocFinished == (s.c.iocFinished || (s.c.ioc == rq.ioc && s.c.ioc != 0))
            && r.c.antic == (if s.c.ioc == rq.ioc && s.c.ioc != 0 && s.c.antic == WaitReq then WaitNext else s.c.antic)
  {
    hide SideOk, WriteBatch;
    assert x in s.out;
  }

  /** Write batches grow if they used up their writes early, and shrink if they were late under competition, to no less than one. */
  lemma WriteBatchFollows(count: nat, current: nat, idled: bool, batch: nat, time: int)
    requires count >= 1
    ensures var n := WriteBatch(count, current, idled, batch, time);
            && n >= 1
            && (n > count <==> time < batch && current == 0 && batch > 0)
            && (n < count <==> time > batch && !idled && count > 1)
            && (time < batch && current == 0 && batch > 0 ==>
                  n == count + if time < 0 || batch > time * 3 then count else 1)
            && (time > batch && !idled && count > 1 ==> n == if time > batch * 3 then count / 2 else count - 1)
  {
  }
}
