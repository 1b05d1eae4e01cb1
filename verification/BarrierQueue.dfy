/**
 The same protocol as the source runs it: a request queue updated in place.
 Every method is proved against the function of module Barrier that specifies it,
 and keeps the invariant the run theorems there are about.
 */
module BarrierQueue {
  import opened Barrier

  datatype Where = InsertFrontOf | InsertBackOf | InsertSorted

  class RequestQueue {
    var queue: seq<Rq>
    var sorter: set<Rq>
    var flying: set<Rq>
    var started: set<Rq>
    var soft: set<Rq>
    var ordseq: set<nat>
    var mode: Mode
    var orig: Rq
    var orderr: int
    var inFlight: int
    var ordcolor: bool
    var h: History

    ghost function State(): Q
      reads this
    {
      Q(queue, sorter, flying, started, soft, ordseq, mode, orig, orderr, inFlight, ordcolor, h)
    }

    constructor (anyMode: Mode, anyRq: Rq)
      ensures Idle(State()) && Inv(State())
    {
      queue, sorter, flying, started, soft := [], {}, {}, {}, {};
      ordseq, mode, orig, orderr, inFlight, ordcolor := {}, anyMode, anyRq, 0, 0, false;
      h := History([], 0, [], [], []);
      new;
      IdleInv(State());
    }

    /** blk_ordered_complete_seq; its BUG_ON is the second precondition. */
    method CompleteSeq(done: seq<nat>, error: int) returns (complete: bool)
      requires ordseq != {}
      requires SetOf(done) !! ordseq
      modifies this
      ensures State() == Barrier.CompleteSeq(old(State()), done, error)
      ensures complete <==> ordseq == {}
    {
      if error != 0 && orderr == 0 {
        orderr := error;
      }
      ordseq := ordseq + SetOf(done);
      h := h.(steps := h.steps + done, reported := h.reported + [error]);
      if CurSeq(ordseq) != DONE {
        return false;
      }
      ordseq := {};
      h := h.(ended := h.ended + [End(orig, orderr, h.steps, h.reported)]);
      return true;
    }

    /** One proxy of the sequence: initialised and put at the front, or its step is skipped. */
    method StackProxy(wanted: bool, p: Rq, step: nat, first0: Option<Rq>, skip0: seq<nat>)
      returns (first: Option<Rq>, skip: seq<nat>)
      modifies this`queue, this`soft, this`started
      ensures queue == Push(wanted, p, old(queue))
      ensures soft == old(soft) + Only(wanted, p) && started == old(started) - Only(wanted, p)
      ensures first == (if wanted then Some(p) else first0) && skip == Note(wanted, step, skip0)
    {
      first, skip := first0, skip0;
      if wanted {
        started := started - {p};
        soft := soft + {p};
        queue := [p] + queue;
        first := Some(p);
      } else {
        skip := skip + [step];
      }
    }

    /** start_ordered up to the completion of the skipped steps, proxies stacked in reverse order. */
    method StackSequence(next: Mode) returns (first: Option<Rq>, skip: seq<nat>)
      requires queue != [] && ordseq == {}
      modifies this
      ensures State() == Stacked(old(State()), next)
      ensures skip == Skipped(mode, inFlight)
      ensures first == if DRAIN !in skip || Proxies(mode) == [] then None else Some(Proxies(mode)[0])
    {
      hide Skipped, Proxies, ModeFor, SetOf;
      TakeOrig(next);
      first, skip := StackProxies();
    }

    /** The barrier is stashed away as orig_bar_rq and the sequence state set up. */
    method TakeOrig(next: Mode)
      requires queue != [] && ordseq == {}
      modifies this
      ensures orig == old(queue[0]) && queue == old(queue[1..]) && mode == ModeFor(orig, next)
      ensures orderr == 0 && ordseq == {STARTED}
      ensures inFlight == if orig in old(started) then old(inFlight) + 1 else old(inFlight)
      ensures sorter == old(sorter) && flying == old(flying) && started == old(started) && soft == old(soft)
      ensures ordcolor == old(ordcolor)
      ensures h == old(h).(base := old(h).base + 1, steps := [], reported := [])
    {
      var rq := queue[0];
      orderr, mode, ordseq := 0, ModeFor(rq, next), {STARTED};
      h := h.(base := h.base + 1, steps := [], reported := []);
      orig, queue := rq, queue[1..];
      inFlight := if rq in started then inFlight + 1 else inFlight;
    }

    method StackProxies() returns (first: Option<Rq>, skip: seq<nat>)
      modifies this`queue, this`soft, this`started
      ensures queue == Proxies(mode) + old(queue)
      ensures soft == old(soft) + SetOf(Proxies(mode)) && started == old(started) - SetOf(Proxies(mode))
      ensures skip == Skipped(mode, inFlight)
      ensures first == if DRAIN !in skip || Proxies(mode) == [] then None else Some(Proxies(mode)[0])
    {
      hide Proxies, SetOf, Push, Only, Note, Skipped;
      ghost var queue0, soft0, started0 := queue, soft, started;
      first, skip := StackProxy(mode.postflush, PostFlushRq, POSTFLUSH, None, []);
      first, skip := StackProxy(mode.bar, BarRq, BAR, first, skip);
      first, skip := StackProxy(mode.preflush, PreFlushRq, PREFLUSH, first, skip);
      StackedInReverse(mode, queue0);
      StackedFlags(mode, soft0, started0);
      SkippedInOrder(mode, inFlight);
      if !mode.byTag && inFlight != 0 {
        first := None;
      } else {
        skip := skip + [DRAIN];
      }
    }

    /** start_ordered. */
    method StartOrdered(next: Mode) returns (verdict: Verdict)
      requires queue != [] && ordseq == {}
      modifies this
      ensures (State(), verdict) == Barrier.StartOrdered(old(State()), next)
    {
      var first, skip := StackSequence(next);
      assert SetOf(skip) !! ordseq by {
        SkippedFacts(mode, inFlight);
      }
      var complete := CompleteSeq(skip, 0);
      verdict := if complete then Gone else Return(first);
    }

    /** blk_do_ordered. */
    method DoOrdered(next: Option<Mode>) returns (verdict: Verdict)
      requires queue != []
      modifies this
      ensures (State(), verdict) == Barrier.DoOrdered(old(State()), next)
      ensures old(Inv(State()) && Drained(State()) && InSeq(State()) && queue[0].kind != Special) ==>
                old(ReqSeq(orig.color, queue[0]) >= CurSeq(ordseq))
    {
      hide Inv, Drained;
      if Inv(State()) && Drained(State()) && InSeq(State()) && queue[0].kind != Special {
        HeadNotBehind(State());
      }
      var rq := queue[0];
      if ordseq == {} {
        if !IsBar(rq) {
          return Return(Some(rq));
        }
        if next.Some? {
          verdict := StartOrdered(next.value);
          return;
        }
        queue := queue[1..];
        if rq in started {
          inFlight := inFlight + 1;
        }
        h := h.(base := h.base + 1, ended := h.ended + [End(rq, EOPNOTSUPP, [], [EOPNOTSUPP])]);
        return Gone;
      }
      if rq.kind == Special {
        return Return(Some(rq));
      }
      if mode.byTag {
        verdict := Return(if IsBar(rq) then None else Some(rq));
      } else {
        verdict := Return(if ReqSeq(orig.color, rq) > CurSeq(ordseq) then None else Some(rq));
      }
    }

    /** The walk from the tail in elv_dispatch_sort; the comparison of sectors is left open. */
    method DispatchPosition() returns (p: nat)
      ensures MayDispatchAt(State(), p)
    {
      p := |queue|;
      while p > 0 && !queue[p - 1].barrier && queue[p - 1] !in soft && queue[p - 1] !in started
        invariant MayDispatchAt(State(), p)
      {
        if * {
          return;
        }
        p := p - 1;
      }
    }

    /** elevator_dispatch_fn: a scheduler may hold requests back unless it is forced. */
    method DispatchOne(force: bool) returns (moved: bool)
      requires Inv(State())
      modifies this
      ensures Inv(State())
      ensures old(Drained(State())) ==> Drained(State())
      ensures moved ==> exists r, p :: r in old(sorter) && MayDispatchAt(old(State()), p) && State() == Dispatch(old(State()), r, p)
      ensures moved ==> |sorter| < |old(sorter)|
      ensures !moved ==> State() == old(State()) && (force ==> sorter == {})
    {
      hide Inv, Drained;
      if sorter == {} {
        return false;
      }
      if !force {
        if * {
          return false;
        }
      }
      var r :| r in sorter;
      var p := DispatchPosition();
      DispatchKeeps(State(), r, p);
      if Drained(State()) {
        DispatchDrained(State(), r, p);
      }
      queue := Insert(queue, p, r);
      sorter := sorter - {r};
      return true;
    }

    /** What elv_next_request promises about a request it hands out. */
    ghost predicate MayHaveBeenHandedOut(rq: Rq)
      reads this
    {
      && rq in started && !IsBar(rq)
      && (Drained(State()) && IsProxy(rq) ==>
            forall u | Unfinished(State(), u) && u.kind == Fs :: orig.epoch < u.epoch)
      && (Drained(State()) && rq.kind == Fs ==> rq.epoch <= |h.ended|)
    }

    /** elv_next_request, without prep_rq_fn. */
    method NextRequest(next: Option<Mode>) returns (rq: Option<Rq>)
      requires Inv(State())
      modifies this
      ensures Inv(State())
      ensures old(Drained(State())) && next.Some? && !next.value.byTag ==> Drained(State())
      ensures rq.Some? ==> MayHaveBeenHandedOut(rq.value)
    {
      hide Inv, Drained, Barrier.DoOrdered;
      while true
        invariant Inv(State())
        invariant old(Drained(State())) && next.Some? && !next.value.byTag ==> Drained(State())
        decreases |sorter|, |queue|
      {
        if queue != [] {
          PeekKeeps(State(), next);
          if Drained(State()) && next.Some? && !next.value.byTag {
            NextDrained(State(), next);
          }
          GoneShrinks(State(), next);
          var verdict := DoOrdered(next);
          if verdict.Return? {
            if verdict.rq.Some? {
              started := started + {verdict.rq.value};
              HandedOut(State(), verdict.rq.value);
            }
            return verdict.rq;
          }
        } else {
          var moved := DispatchOne(false);
          if !moved {
            return None;
          }
        }
      }
    }

    /** elv_dequeue_request by the driver. */
    method Dequeue(i: nat)
      requires Inv(State()) && i < |queue| && queue[i] in started
      modifies this
      ensures State() == Barrier.Dequeue(old(State()), i) && Inv(State())
    {
      hide Inv;
      DequeueKeeps(State(), i);
      var rq := queue[i];
      queue := Remove(queue, i);
      flying := flying + {rq};
      if rq in started && Accounted(rq) {
        inFlight := inFlight + 1;
      }
    }

    /** elv_completed_request. */
    method Completed(rq: Rq)
      requires Inv(State()) && rq in flying
      modifies this
      ensures State() == Barrier.Completed(old(State()), rq)
    {
      hide Inv;
      if rq in started && Accounted(rq) {
        inFlight := inFlight - 1;
      }
      flying, started, soft := flying - {rq}, started - {rq}, soft - {rq};
      if ordseq != {} {
        if inFlight == 0 && CurSeq(ordseq) == DRAIN && (queue == [] || ReqSeq(orig.color, queue[0]) > DRAIN) {
          var _ := CompleteSeq([DRAIN], 0);
        }
      }
    }

    /** The request ends: pre_flush_end_io, bar_end_io or post_flush_end_io for a proxy. */
    method EndRequest(rq: Rq, error: int)
      requires Inv(State()) && rq in flying
      modifies this
      ensures State() == Barrier.EndRequest(old(State()), rq, error) && Inv(State())
    {
      hide Inv, Barrier.Completed;
      EndRequestKeeps(State(), rq, error);
      if IsProxy(rq) {
        ProxyStepOpen(State(), rq);
      }
      Completed(rq);
      if IsProxy(rq) {
        var _ := CompleteSeq([ReqSeq(false, rq)], error);
      }
    }

    /** The walk of ELEVATOR_INSERT_REQUEUE. */
    method FindRequeuePos(rq: Rq) returns (pos: nat)
      ensures pos == RequeuePos(State(), rq)
    {
      hide ReqSeq;
      pos := 0;
      if ordseq != {} {
        var level := ReqSeq(orig.color, rq);
        while pos < |queue| && level > ReqSeq(orig.color, queue[pos])
          invariant pos <= |queue|
          invariant forall i | 0 <= i < pos :: ReqSeq(orig.color, queue[i]) < level
        {
          pos := pos + 1;
        }
        RequeueAtUnique(queue, orig.color, level, pos);
      }
    }

    /** elv_requeue_request. */
    method Requeue(rq: Rq)
      requires Inv(State()) && rq in flying
      modifies this
      ensures State() == Barrier.Requeue(old(State()), rq) && Inv(State())
    {
      hide Inv, RequeuePos, Insert;
      RequeueKeeps(State(), rq);
      var pos := FindRequeuePos(rq);
      if rq in started && Accounted(rq) {
        inFlight := inFlight - 1;
      }
      flying, started, soft := flying - {rq}, started - {rq}, soft + {rq};
      queue := Insert(queue, pos, rq);
    }

    /** elv_drain_elevator; handed is what the scheduler gave out, and where it went. */
    method DrainElevator() returns (ghost handed: seq<(Rq, nat)>)
      requires Inv(State())
      modifies this
      ensures Inv(State()) && sorter == {} && HandedOver(old(State()), handed, State())
      ensures h == old(h) && ordcolor == old(ordcolor) && soft == old(soft) && started == old(started)
      ensures flying == old(flying)
      ensures forall r :: r in queue <==> r in old(queue) || r in old(sorter)
      ensures old(Drained(State())) ==> Drained(State())
    {
      hide Inv, Drained, Insert;
      var moved := true;
      handed := [];
      while moved
        invariant Inv(State()) && (!moved ==> sorter == {})
        invariant HandedOver(old(State()), handed, State())
        invariant h == old(h) && ordcolor == old(ordcolor) && soft == old(soft) && started == old(started)
        invariant flying == old(flying)
        invariant forall r :: r in queue || r in sorter <==> r in old(queue) || r in old(sorter)
        invariant old(Drained(State())) ==> Drained(State())
        decreases |sorter|, moved
      {
        ghost var q := State();
        moved := DispatchOne(true);
        if moved {
          ghost var r, p :| r in q.sorter && MayDispatchAt(q, p) && State() == Dispatch(q, r, p);
          InsertIn(q.queue, p, r);
          OneMoreHandedOver(old(State()), handed, q, r, p);
          handed := handed + [(r, p)];
        }
      }
    }

    /** __elv_add_request and elv_insert, for the insertion points their callers may use. */
    method AddRequest(r: Rq, where: Where) returns (ghost handed: seq<(Rq, nat)>, ghost drained: Q)
      requires Inv(State()) && Fresh(State(), Coloured(State(), r))
      requires r.kind in {Fs, Special} && (r.barrier ==> r.kind == Fs)
      requires where.InsertFrontOf? ==> r.kind == Special
      requires where.InsertSorted? ==> r.kind == Fs
      modifies this
      ensures Inv(State())
      ensures old(Drained(State())) ==> Drained(State())
      ensures var q, x := old(State()), Coloured(old(State()), r);
              && Unfinished(State(), x)
              && (r.barrier ==> queue != [] && queue[|queue| - 1] == x && sorter == {} && h.bars == q.h.bars + [x])
              && (where.InsertFrontOf? ==> State() == AddFront(q, r))
              && (where.InsertSorted? && !r.barrier ==> State() == AddSorted(q, r))
              && (where.InsertBackOf? || (where.InsertSorted? && r.barrier) ==>
                    HandedOver(q, handed, drained) && drained.sorter == {} && State() == AddBack(drained, r))
    {
      hide Inv, Drained, HandedOver;
      handed, drained := [], State();
      var rq := r.(color := ordcolor, epoch := |h.bars|);
      if where.InsertFrontOf? {
        AddFrontKeeps(State(), r);
        if Drained(State()) {
          InsertFrontDrained(State(), r);
        }
        soft, queue := soft + {rq}, [rq] + queue;
      } else if where.InsertSorted? && !r.barrier {
        AddSortedKeeps(State(), r);
        if Drained(State()) {
          StepDrained(State(), InsertSort(r));
        }
        sorter := sorter + {rq};
      } else {
        // the colour is toggled before the drain in the source; nothing in between reads it
        handed := DrainElevator();
        drained := State();
        AddBackKeeps(State(), r);
        if Drained(State()) {
          AddBackDrained(State(), r);
        }
        if r.barrier {
          ordcolor := !ordcolor;
          h := h.(bars := h.bars + [rq]);
        }
        soft, queue := soft + {rq}, queue + [rq];
      }
    }
  }

  /** d is what q becomes when the scheduler hands over these requests, each to a place it may go to. */
  ghost predicate HandedOver(q: Q, handed: seq<(Rq, nat)>, d: Q)
    decreases |handed|
  {
    if handed == [] then d == q
    else
      && handed[0].0 in q.sorter && MayDispatchAt(q, handed[0].1)
      && HandedOver(Dispatch(q, handed[0].0, handed[0].1), handed[1..], d)
  }

  lemma {:induction false} OneMoreHandedOver(q: Q, handed: seq<(Rq, nat)>, d: Q, r: Rq, p: nat)
    requires HandedOver(q, handed, d) && r in d.sorter && MayDispatchAt(d, p)
    ensures HandedOver(q, handed + [(r, p)], Dispatch(d, r, p))
    decreases |handed|
  {
    hide Dispatch;
    var longer := handed + [(r, p)];
    if handed == [] {
      assert longer == [(r, p)] && longer[1..] == [];
      assert HandedOver(Dispatch(d, r, p), [], Dispatch(d, r, p));
    } else {
      OneMoreHandedOver(Dispatch(q, handed[0].0, handed[0].1), handed[1..], d, r, p);
      assert longer[0] == handed[0] && longer[1..] == handed[1..] + [(r, p)];
    }
  }

  ghost function Push(wanted: bool, p: Rq, s: seq<Rq>): seq<Rq> {
    if wanted then [p] + s else s
  }

  ghost function Note(wanted: bool, step: nat, s: seq<nat>): seq<nat> {
    if wanted then s else s + [step]
  }

  lemma SkippedInOrder(m: Mode, inFlight: int)
    ensures var s := Note(m.preflush, PREFLUSH, Note(m.bar, BAR, Note(m.postflush, POSTFLUSH, [])));
            && Skipped(m, inFlight) == (if !m.byTag && inFlight != 0 then s else s + [DRAIN])
            && DRAIN !in s
  {
  }

  ghost function Only(wanted: bool, p: Rq): set<Rq> {
    if wanted then {p} else {}
  }

  /** Stacking the proxies in reverse order puts them at the front in order. */
  lemma StackedInReverse(m: Mode, s: seq<Rq>)
    ensures Push(m.preflush, PreFlushRq, Push(m.bar, BarRq, Push(m.postflush, PostFlushRq, s))) == Proxies(m) + s
    ensures (if m.preflush then Some(PreFlushRq) else if m.bar then Some(BarRq) else if m.postflush then Some(PostFlushRq) else None)
         == if Proxies(m) == [] then None else Some(Proxies(m)[0])
  {
  }

  lemma StackedFlags(m: Mode, soft: set<Rq>, started: set<Rq>)
    ensures soft + Only(m.postflush, PostFlushRq) + Only(m.bar, BarRq) + Only(m.preflush, PreFlushRq) == soft + SetOf(Proxies(m))
    ensures started - Only(m.postflush, PostFlushRq) - Only(m.bar, BarRq) - Only(m.preflush, PreFlushRq) == started - SetOf(Proxies(m))
  {
    assert SetOf(Proxies(m)) == Only(m.postflush, PostFlushRq) + Only(m.bar, BarRq) + Only(m.preflush, PreFlushRq);
  }

  /** The walk stops exactly where the specification says. */
  lemma RequeueAtUnique(s: seq<Rq>, color: bool, level: nat, pos: nat)
    requires pos <= |s|
    requires forall i | 0 <= i < pos :: ReqSeq(color, s[i]) < level
    requires pos < |s| ==> level <= ReqSeq(color, s[pos])
    ensures pos == RequeueAt(s, color, level)
  {
    hide ReqSeq, RequeueAt;
    var p := RequeueAt(s, color, level);
    assert pos <= p;
  }

  lemma GoneShrinks(q: Q, next: Option<Mode>)
    requires q.queue != []
    ensures var (q', v) := Barrier.DoOrdered(q, next); v.Gone? ==> q'.sorter == q.sorter && |q'.queue| < |q.queue|
  {
    hide Barrier.StartOrdered, CurSeq, ReqSeq;
    if next.Some? {
      CompleteAtOnce(q, next.value);
    }
  }

  /** A sequence is complete at once only when it has no proxies. */
  lemma CompleteAtOnce(q: Q, next: Mode)
    requires q.queue != []
    ensures var (q', v) := Barrier.StartOrdered(q, next); v.Gone? ==> q'.sorter == q.sorter && |q'.queue| < |q.queue|
  {
    hide CurSeq, Skipped, ModeFor;
    var q1 := Stacked(q, next);
    SkippedFacts(q1.mode, q1.inFlight);
    CurSeqDone({STARTED} + SetOf(Skipped(q1.mode, q1.inFlight)));
  }

  lemma HandedOut(q: Q, rq: Rq)
    requires Inv(q) && rq in q.started
    ensures !IsBar(rq)
    ensures Drained(q) && IsProxy(rq) ==> forall u | Unfinished(q, u) && u.kind == Fs :: q.orig.epoch < u.epoch
    ensures Drained(q) && rq.kind == Fs ==> rq.epoch <= |q.h.ended|
  {
    if rq in q.queue {
      assert Queued(q, rq);
    }
    if Drained(q) {
      StartedIsSafe(q, rq);
    }
  }
}
