/**
 What one ordered sequence does from its start to its end, in tag and drain mode alike:
 which proxies it hands out, what has finished when it ends, and that it never hangs.
 */
module BarrierSequence {
  import opened Barrier

  /** What next_ordered asks for when the barrier is started: an empty barrier has nothing to write and to flush after. */
  ghost predicate Asked(b: Rq, next: Mode, p: Rq) {
    match p.kind
    case PreFlush => next.preflush
    case Bar => next.bar && !b.empty
    case PostFlush => next.postflush && !b.empty
    case _ => false
  }

  /** The sequence can be ordered by tag: next_ordered says so, and there is a command to tag. */
  ghost predicate Tagged(b: Rq, next: Mode) {
    next.byTag && (!b.empty || next.preflush)
  }

  /** In step n of the run elv_next_request hands out p. */
  ghost predicate GivenAt(states: seq<Q>, steps: seq<Step>, n: nat, p: Rq) {
    && n < |steps| && n < |states| && steps[n].Next? && states[n].queue != []
    && Peek(states[n], steps[n].mode).1 == Return(Some(p))
  }

  ghost predicate Given(states: seq<Q>, steps: seq<Step>, j: nat, i: nat, p: Rq) {
    exists n: nat :: j <= n < i && GivenAt(states, steps, n, p)
  }

  /** The step starts a sequence. */
  ghost predicate Starts(q: Q, s: Step) {
    s.Next? && s.mode.Some? && !InSeq(q) && q.queue != [] && IsBar(q.queue[0])
  }

  // ------------------------------------------------------------------ one step

  /** The proxies after a step: a proxy is started by being handed out, and its step completed after that. */
  ghost predicate Tracks(q: Q, s: Step, q': Q, p: Rq) {
    && (InSeq(q') ==>
          && (p in q'.started ==> p in q.started || (s.Next? && q.queue != [] && Peek(q, s.mode).1 == Return(Some(p))))
          && (ReqSeq(false, p) in q'.ordseq ==> ReqSeq(false, p) in q.ordseq || p in q.started)
          && (ReqSeq(false, p) in q.ordseq ==> ReqSeq(false, p) in q'.ordseq))
    && (!InSeq(q') ==> ReqSeq(false, p) in q.ordseq || p in q.started)
  }

  /** The sequence goes on, with the same barrier. */
  ghost predicate GoesOn(q: Q, q': Q) {
    InSeq(q') ==> q'.orig == q.orig && q'.h.base == q.h.base && q'.mode == q.mode
  }

  lemma PeekTracks(q: Q, mode: Option<Mode>, p: Rq)
    requires Inv(q) && InSeq(q) && q.queue != [] && IsProxy(p)
    ensures GoesOn(q, Peek(q, mode).0) && InSeq(Peek(q, mode).0) && Tracks(q, Next(mode), Peek(q, mode).0, p)
  {
    hide Inv, DoOrdered, ReqSeq;
    PeekPicksHead(q, mode);
  }

  lemma ProxyEndTracks(q: Q, r: Rq, error: int, p: Rq)
    requires Inv(q) && r in q.flying && IsProxy(r) && IsProxy(p)
    ensures GoesOn(q, EndRequest(q, r, error)) && Tracks(q, Finish(r, error), EndRequest(q, r, error), p)
  {
    hide Lists, Barriers, Sequence, Books, Completed, CurSeq;
    var q1, q', n := Released(q, r), EndRequest(q, r, error), ReqSeq(false, r);
    ProxyStepOpen(q, r);
    assert q' == CompleteSeq(q1, [n], error);
    assert SetOf([n]) == {n};
    SequenceStarted(q);
    CurSeqDone(q.ordseq + {n});
  }

  lemma SequenceStarted(q: Q)
    requires Sequence(q) && InSeq(q)
    ensures STARTED in q.ordseq && q.ordseq <= {STARTED, DRAIN, PREFLUSH, BAR, POSTFLUSH} && CurSeq(q.ordseq) != DONE
  {
  }

  lemma FsEndTracks(q: Q, r: Rq, error: int, p: Rq)
    requires Inv(q) && InSeq(q) && r in q.flying && !IsProxy(r) && IsProxy(p)
    ensures GoesOn(q, EndRequest(q, r, error)) && Tracks(q, Finish(r, error), EndRequest(q, r, error), p)
  {
    hide Lists, Barriers, Sequence, Books, CurSeq;
    var q1, q' := Released(q, r), EndRequest(q, r, error);
    assert SetOf([DRAIN]) == {DRAIN};
    SequenceStarted(q);
    CurSeqDone(q.ordseq + {DRAIN});
  }

  lemma StepTracks(q: Q, s: Step, p: Rq)
    requires Inv(q) && InSeq(q) && Enabled(q, s) && IsProxy(p)
    ensures GoesOn(q, Apply(q, s)) && Tracks(q, s, Apply(q, s), p)
  {
    hide Inv, Peek, EndRequest, ReqSeq, Insert, Remove, RequeuePos;
    match s
    case Next(mode) => PeekTracks(q, mode, p);
    case Finish(r, error) =>
      if IsProxy(r) {
        ProxyEndTracks(q, r, error, p);
      } else {
        FsEndTracks(q, r, error, p);
      }
    case _ =>
  }

  /** How a sequence starts: what is not asked for is skipped, and what is asked for is still to be done. */
  lemma StartTracks(q: Q, next: Mode, p: Rq)
    requires Inv(q) && Starts(q, Next(Some(next))) && IsProxy(p)
    ensures var (q', v) := Peek(q, Some(next));
            && (InSeq(q') ==>
                  && q'.orig == q.queue[0] && q'.h.base == q.h.base + 1 && (q'.mode.byTag <==> Tagged(q.queue[0], next))
                  && (p in q'.started ==> v == Return(Some(p)))
                  && (ReqSeq(false, p) in q'.ordseq <==> !Asked(q.queue[0], next, p)))
            && (!InSeq(q') ==> !Asked(q.queue[0], next, p) && v.Gone?)
  {
    hide Inv, StartOrdered;
    StartHandsOut(q, next);
    StartSkips(q, next, p);
  }

  lemma StartSkips(q: Q, next: Mode, p: Rq)
    requires Inv(q) && Starts(q, Next(Some(next))) && IsProxy(p)
    ensures var (q', v) := StartOrdered(q, next);
            && (InSeq(q') ==>
                  && q'.orig == q.queue[0] && q'.h.base == q.h.base + 1 && (q'.mode.byTag <==> Tagged(q.queue[0], next))
                  && p !in q'.started
                  && (ReqSeq(false, p) in q'.ordseq <==> !Asked(q.queue[0], next, p)))
            && (!InSeq(q') ==> !Asked(q.queue[0], next, p))
  {
    hide Inv, ModeFor, CurSeq, Skipped, Proxies;
    var q1 := Stacked(q, next);
    var skip := Skipped(q1.mode, q1.inFlight);
    StackedStarted(q, next);
    NoProxyStarted(q, p);
    SkippedFacts(q1.mode, q1.inFlight);
    CurSeqDone({STARTED} + SetOf(skip));
    SkipsUnasked(q.queue[0], next, q1.inFlight, p);
    TagIfTagged(q.queue[0], next);
  }

  lemma TagIfTagged(b: Rq, next: Mode)
    ensures ModeFor(b, next).byTag <==> Tagged(b, next)
  {
  }

  lemma NoProxyStarted(q: Q, p: Rq)
    requires Inv(q) && !InSeq(q) && IsProxy(p)
    ensures p !in q.started
  {
    hide Lists, Books;
    assert !Pending(q, p);
  }

  lemma SkipsUnasked(b: Rq, next: Mode, inFlight: int, p: Rq)
    requires IsProxy(p)
    ensures ReqSeq(false, p) in Skipped(ModeFor(b, next), inFlight) <==> !Asked(b, next, p)
  {
  }

  // --------------------------------------------------------------- one sequence

  /** A sequence is started in step j and is still running at i. */
  ghost predicate RunsFrom(states: seq<Q>, steps: seq<Step>, j: nat, i: nat) {
    && IsRun(states, steps) && j < i < |states| && Starts(states[j], steps[j])
    && forall n | j < n <= i :: InSeq(states[n])
  }

  /** The sequence started in step j ends in step k. */
  ghost predicate EndsAt(states: seq<Q>, steps: seq<Step>, j: nat, k: nat) {
    && IsRun(states, steps) && j <= k < |steps| && Starts(states[j], steps[j])
    && (forall n | j < n <= k :: InSeq(states[n])) && !InSeq(states[k + 1])
  }

  /** What is known of proxy p at i. */
  ghost predicate Account(states: seq<Q>, steps: seq<Step>, j: nat, i: nat, p: Rq)
    requires RunsFrom(states, steps, j, i)
  {
    var q, b := states[i], states[j].queue[0];
    && q.orig == b && q.h.base == states[j].h.base + 1 && (q.mode.byTag <==> Tagged(b, steps[j].mode.value))
    && if Asked(b, steps[j].mode.value, p) then
         p in q.started || ReqSeq(false, p) in q.ordseq ==> Given(states, steps, j, i, p)
       else
         ReqSeq(false, p) in q.ordseq
  }

  lemma {:induction false} RunAccounts(states: seq<Q>, steps: seq<Step>, j: nat, i: nat, p: Rq)
    requires RunsFrom(states, steps, j, i) && IsProxy(p)
    ensures Account(states, steps, j, i, p)
  {
    hide Inv, Peek, ReqSeq, Asked;
    RunKeeps(states, steps, i - 1);
    var q, s, q' := states[i - 1], steps[i - 1], states[i];
    assert Enabled(q, s) && q' == Apply(q, s);
    assert s.Next? && q.queue != [] && Peek(q, s.mode).1 == Return(Some(p)) ==> GivenAt(states, steps, i - 1, p);
    if i - 1 == j {
      StartTracks(q, s.mode.value, p);
    } else {
      RunAccounts(states, steps, j, i - 1, p);
      hide Apply;
      StepTracks(q, s, p);
      assert Given(states, steps, j, i - 1, p) ==> Given(states, steps, j, i, p);
    }
  }

  /**
   In every run, by tag or by draining: the proxies a sequence hands out between its start and its end are
   exactly those that next_ordered asks for, all of them for a barrier with data, and only the pre-flush for an empty one.
   */
  lemma HandsOutWhatIsAsked(states: seq<Q>, steps: seq<Step>, j: nat, k: nat, p: Rq)
    requires EndsAt(states, steps, j, k) && IsProxy(p)
    ensures Given(states, steps, j, k + 1, p) <==> Asked(states[j].queue[0], steps[j].mode.value, p)
  {
    hide Inv, Peek, ReqSeq, Asked;
    RunKeeps(states, steps, k);
    var q, s := states[k], steps[k];
    assert Enabled(q, s) && states[k + 1] == Apply(q, s);
    if k == j {
      StartTracks(q, s.mode.value, p);
    } else {
      hide Apply;
      RunAccounts(states, steps, j, k, p);
      StepTracks(q, s, p);
      assert s.Next? && q.queue != [] && Peek(q, s.mode).1 == Return(Some(p)) ==> GivenAt(states, steps, k, p);
    }
    if !Asked(states[j].queue[0], steps[j].mode.value, p) {
      forall n: nat | j <= n <= k ensures !GivenAt(states, steps, n, p) {
        NotGiven(states, steps, j, k, n, p);
      }
    }
  }

  lemma NotGiven(states: seq<Q>, steps: seq<Step>, j: nat, k: nat, n: nat, p: Rq)
    requires EndsAt(states, steps, j, k) && IsProxy(p) && j <= n <= k
    requires !Asked(states[j].queue[0], steps[j].mode.value, p)
    ensures !GivenAt(states, steps, n, p)
  {
    hide Inv, Peek, ReqSeq, Asked;
    RunKeeps(states, steps, n);
    var q, s := states[n], steps[n];
    assert Enabled(q, s) && states[n + 1] == Apply(q, s);
    if s.Next? {
      if n == k {
        if n == j {
          StartTracks(q, s.mode.value, p);
        } else {
          PeekTracks(q, s.mode, p);
        }
      } else if Peek(q, s.mode).1 == Return(Some(p)) {
        RunKeeps(states, steps, n + 1);
        RunAccounts(states, steps, j, n + 1, p);
        PeekReturns(q, s.mode, p);
        StartedIsPending(states[n + 1], p);
      }
    }
  }

  lemma StartedIsPending(q: Q, p: Rq)
    requires Inv(q) && IsProxy(p) && p in q.started
    ensures ReqSeq(false, p) !in q.ordseq
  {
    hide Lists, Books, Barriers, ReqSeq, CurSeq;
    assert Pending(q, p);
  }

  /**
   What the look at the queue that starts a sequence gives: by tag the first proxy asked for, at once; by draining too if
   nothing is in flight; and if nothing is asked for the barrier is gone.
   */
  lemma StartGives(q: Q, next: Mode)
    requires Inv(q) && Starts(q, Next(Some(next)))
    ensures var b := q.queue[0];
            var drained := forall r | r in q.flying :: !Accounted(r);
            Peek(q, Some(next)).1 ==
            if !Tagged(b, next) && !drained then Return(None)
            else if next.preflush then Return(Some(PreFlushRq))
            else if b.empty then Gone
            else if next.bar then Return(Some(BarRq))
            else if next.postflush then Return(Some(PostFlushRq))
            else Gone
  {
    hide Lists, Sequence, Books, Skipped, Proxies, CurSeq, ModeFor;
    var q1 := Stacked(q, next);
    HeadNotStarted(q);
    InFlightCounts(q);
    SkippedFacts(q1.mode, q1.inFlight);
    CurSeqDone({STARTED} + SetOf(Skipped(q1.mode, q1.inFlight)));
    FirstAsked(q.queue[0], next);
    TagIfTagged(q.queue[0], next);
  }

  lemma InFlightCounts(q: Q)
    requires Books(q)
    ensures q.inFlight == 0 <==> forall r | r in q.flying :: !Accounted(r)
  {
    assert forall r | r in q.flying && Accounted(r) :: r in FlyingAccounted(q);
  }

  lemma FirstAsked(b: Rq, next: Mode)
    ensures var m := ModeFor(b, next);
            && m.preflush == next.preflush && m.bar == (next.bar && !b.empty) && m.postflush == (next.postflush && !b.empty)
            && (Proxies(m) == [] <==> !m.preflush && !m.bar && !m.postflush)
            && (Proxies(m) != [] ==>
                  Proxies(m)[0] == if m.preflush then PreFlushRq else if m.bar then BarRq else PostFlushRq)
  {
  }

  /** By tag the sequence makes nothing wait but the next barrier. */
  lemma TaggedWaitsForNothing(states: seq<Q>, steps: seq<Step>, j: nat, i: nat, next: Option<Mode>)
    requires RunsFrom(states, steps, j, i) && Tagged(states[j].queue[0], steps[j].mode.value) && states[i].queue != []
    ensures Peek(states[i], next).1 == Return(if IsBar(states[i].queue[0]) then None else Some(states[i].queue[0]))
  {
    hide Tagged, CurSeq, ReqSeq;
    RunKeeps(states, steps, i);
    RunAccounts(states, steps, j, i, BarRq);
    assert Queued(states[i], states[i].queue[0]);
  }

  // ------------------------------------------------------- a sequence without proxies

  /** Nothing the barrier must wait for is left: what is unfinished from before it is of the other colour, and queued. */
  ghost predicate WaitedFor(q: Q, b: Rq) {
    && (forall u | u in q.flying :: u.kind != Fs)
    && (forall u | Unfinished(q, u) && u.kind == Fs && u.epoch <= b.epoch :: u in q.queue && u.color != b.color)
  }

  /** The drain is over when the last request before the barrier completes. */
  lemma DrainedByColour(q: Q)
    requires Lists(q) && Barriers(q) && Books(q) && InSeq(q) && q.inFlight == 0
    requires q.queue == [] || ReqSeq(q.orig.color, q.queue[0]) > DRAIN
    ensures WaitedFor(q, q.orig)
  {
    forall u | u in q.flying ensures u.kind != Fs {
      if u.kind == Fs {
        EmptyFlying(q, u);
      }
    }
    forall u | Unfinished(q, u) && u.kind == Fs && u.epoch <= q.orig.epoch ensures u in q.queue && u.color != q.orig.color {
      if u in q.sorter {
        SorterEpoch(q, u);
      } else if u in q.queue {
        var i :| 0 <= i < |q.queue| && q.queue[i] == u;
        if 0 < i {
          assert Before(Ctx(q), q.queue[0], u);
        }
      }
    }
  }

  lemma EndsDrained(q: Q, s: Step)
    requires Inv(q) && InSeq(q) && Enabled(q, s) && !InSeq(Apply(q, s))
    requires forall p | IsProxy(p) :: ReqSeq(false, p) in q.ordseq
    ensures WaitedFor(Apply(q, s), q.orig)
  {
    hide Lists, Books, Barriers, Sequence, Peek, Places, WaitedFor, CurSeq, ReqSeq, Insert, Remove, RequeuePos;
    if s.Next? {
      PeekTracks(q, s.mode, BarRq);
    }
    assert s.Finish?;
    if IsProxy(s.r) {
      CompleteNotFlying(q, s.r);
    }
    var q1 := Released(q, s.r);
    assert !InSeq(Completed(q, s.r));
    ReleasedLists(q, s.r);
    DrainedByColour(q1);
    SameWaitedFor(q1, Completed(q, s.r), q.orig);
  }

  lemma CompleteNotFlying(q: Q, p: Rq)
    requires Inv(q) && IsProxy(p)
    ensures ReqSeq(false, p) in q.ordseq ==> p !in q.flying
  {
    hide Lists, Books, Barriers, ReqSeq, CurSeq;
    assert Pending(q, p) ==> ReqSeq(false, p) !in q.ordseq;
  }

  lemma SameWaitedFor(q: Q, q': Q, b: Rq)
    requires WaitedFor(q, b) && q'.queue == q.queue && q'.flying == q.flying && q'.sorter == q.sorter
    ensures WaitedFor(q', b)
  {
    assert forall u :: Unfinished(q', u) ==> Unfinished(q, u);
  }

  lemma NoProxies(m: Mode)
    ensures Proxies(m) == [] <==> !m.preflush && !m.bar && !m.postflush
  {
  }

  /** A sequence over at once finds nothing in flight. */
  lemma StartsDrained(q: Q, next: Mode)
    requires Inv(q) && Starts(q, Next(Some(next))) && next.bar && !InSeq(Peek(q, Some(next)).0)
    ensures WaitedFor(Peek(q, Some(next)).0, q.queue[0])
  {
    hide Sequence, Books, Skipped, Proxies, CurSeq;
    var q1, q2 := Stacked(q, next), StartOrdered(q, next).0;
    SkippedFacts(q1.mode, q1.inFlight);
    CurSeqDone({STARTED} + SetOf(Skipped(q1.mode, q1.inFlight)));
    HeadNotStarted(q);
    HeadEpoch(q);
    StackedIn(q, next);
    forall u | u in q2.flying ensures u.kind != Fs {
      if u.kind == Fs {
        EmptyFlying(q, u);
      }
    }
    forall u | Unfinished(q2, u) && u.kind == Fs ensures q.queue[0].epoch < u.epoch {
      if u in q.sorter {
        SorterEpoch(q, u);
      } else {
        NoProxies(q1.mode);
        BehindBarrier(q, u);
      }
    }
  }

  /**
   In every run, and whichever mode is asked for: a sequence that hands out no proxy ends only when no filesystem
   request is with the driver, and none queued before its barrier that it must drain for is left.  (Every mode that
   blk_queue_ordered admits, QUEUE_ORDERED_NONE apart, has DO_BAR.)
   */
  lemma WithoutProxiesDrains(states: seq<Q>, steps: seq<Step>, j: nat, k: nat)
    requires EndsAt(states, steps, j, k) && steps[j].mode.value.bar
    requires forall p | IsProxy(p) :: !Given(states, steps, j, k + 1, p)
    ensures WaitedFor(states[k + 1], states[j].queue[0])
  {
    hide Inv, Peek, ReqSeq, Asked, WaitedFor;
    var q, s := states[k], steps[k];
    RunKeeps(states, steps, k);
    assert Enabled(q, s) && states[k + 1] == Apply(q, s);
    if k == j {
      StartsDrained(q, s.mode.value);
    } else {
      forall p | IsProxy(p) ensures ReqSeq(false, p) in q.ordseq && q.orig == states[j].queue[0] {
        HandsOutWhatIsAsked(states, steps, j, k, p);
        RunAccounts(states, steps, j, k, p);
      }
      hide Apply;
      assert IsProxy(BarRq);
      EndsDrained(q, s);
    }
  }

  // ------------------------------------------------------------------- it never hangs

  /** While a drain is not complete the driver has something to complete, or something to be given. */
  ghost predicate Draining(q: Q) {
    InSeq(q) && DRAIN !in q.ordseq ==> q.flying != {} || (q.queue != [] && ReqSeq(q.orig.color, q.queue[0]) <= DRAIN)
  }

  /** Requests that are not the filesystem's go where they are told to, never through the scheduler. */
  ghost predicate SpecialsStay(q: Q) {
    forall r | r in q.queue && r.kind == Special :: r in q.soft
  }

  ghost predicate Lively(q: Q) {
    Draining(q) && SpecialsStay(q)
  }

  /** With nothing left at the driver, the next look at the queue hands something out or ends the barrier at its head. */
  lemma HandsOutSomething(q: Q, next: Option<Mode>)
    requires Inv(q) && Draining(q) && q.flying == {}
    ensures InSeq(q) ==> q.queue != []
    ensures q.queue != [] ==> Peek(q, next).1 != Return(None)
  {
    hide Inv, StartOrdered;
    if InSeq(q) {
      HeadGoes(q, next);
    } else if q.queue != [] && IsBar(q.queue[0]) && next.Some? {
      StartGoes(q, next.value);
    }
  }

  lemma HeadGoes(q: Q, next: Option<Mode>)
    requires Inv(q) && Draining(q) && q.flying == {} && InSeq(q)
    ensures q.queue != [] && DoOrdered(q, next).1 != Return(None)
  {
    hide Places, Books, Barriers;
    if DRAIN in q.ordseq {
      var p := OpenProxy(q);
      assert Pending(q, p);
      var i :| 0 <= i < |q.queue| && q.queue[i] == p;
      if 0 < i {
        assert Before(Ctx(q), q.queue[0], p);
      }
    } else {
      DrainFirst(q);
    }
  }

  lemma DrainFirst(q: Q)
    requires Sequence(q) && InSeq(q) && DRAIN !in q.ordseq
    ensures CurSeq(q.ordseq) == DRAIN && !q.mode.byTag
  {
  }

  /** The proxy whose turn it is. */
  lemma OpenProxy(q: Q) returns (p: Rq)
    requires Sequence(q) && InSeq(q) && DRAIN in q.ordseq
    ensures IsProxy(p) && ReqSeq(false, p) == CurSeq(q.ordseq) && ReqSeq(false, p) !in q.ordseq
  {
    p := if PREFLUSH !in q.ordseq then PreFlushRq else if BAR !in q.ordseq then BarRq else PostFlushRq;
  }

  lemma StartGoes(q: Q, next: Mode)
    requires Inv(q) && q.flying == {} && Starts(q, Next(Some(next)))
    ensures StartOrdered(q, next).1 != Return(None)
  {
    hide Lists, Sequence, Skipped, Proxies, CurSeq, ModeFor;
    var q1 := Stacked(q, next);
    HeadNotStarted(q);
    assert FlyingAccounted(q) == {};
    SkippedFacts(q1.mode, q1.inFlight);
    CurSeqDone({STARTED} + SetOf(Skipped(q1.mode, q1.inFlight)));
    NoProxies(q1.mode);
  }

  /** During a drain a filesystem request of the other colour is given back: it goes behind the sequence. */
  ghost predicate GivesBackStray(q: Q, s: Step) {
    s.GiveBack? && InSeq(q) && DRAIN !in q.ordseq && s.r.kind == Fs && s.r.color != q.orig.color
  }

  lemma HandoverLively(q: Q, r: Rq, p: nat)
    requires Inv(q) && Lively(q) && r in q.sorter && MayDispatchAt(q, p)
    ensures Lively(Dispatch(q, r, p))
  {
    hide Ordered, Sequence, Books, Insert;
    var q' := Dispatch(q, r, p);
    InsertIn(q.queue, p, r);
    SorterKind(q, r);
    if q.queue != [] {
      var x := q.queue[0];
      assert Queued(q, x);
      if x.kind == Fs {
        HeadEpoch(q);
      }
      assert p > 0 ==> q'.queue[0] == x by {
        InsertHead(q.queue, p, r);
      }
    }
  }

  lemma InsertHead(s: seq<Rq>, p: nat, r: Rq)
    requires p <= |s|
    ensures Insert(s, p, r)[0] == if p == 0 then r else s[0]
  {
  }

  lemma StartLively(q: Q, next: Mode)
    requires Inv(q) && Lively(q) && Starts(q, Next(Some(next)))
    ensures Lively(StartOrdered(q, next).0)
  {
    hide Lists, Sequence, Skipped, Proxies, CurSeq, ModeFor, Ordered;
    var q1, q2 := Stacked(q, next), StartOrdered(q, next).0;
    HeadNotStarted(q);
    assert q.flying == {} ==> FlyingAccounted(q) == {};
    SkippedFacts(q1.mode, q1.inFlight);
    StackedIn(q, next);
    ProxiesOrdered(q1.mode, Ctx(q));
    assert forall x | x in q.queue[1..] :: x in q.queue;
  }

  lemma NextLively(q: Q, mode: Option<Mode>)
    requires Inv(q) && Lively(q) && q.queue != []
    ensures Lively(Peek(q, mode).0)
  {
    hide Inv, StartOrdered;
    if InSeq(q) || !IsBar(q.queue[0]) {
      PeekPicksHead(q, mode);
    } else if mode.Some? {
      StartLively(q, mode.value);
    } else {
      assert forall x | x in q.queue[1..] :: x in q.queue;
    }
  }

  lemma TakeLively(q: Q, i: nat)
    requires Inv(q) && Lively(q) && i < |q.queue| && q.queue[i] in q.started
    ensures Lively(Dequeue(q, i))
  {
    hide Lists, Sequence, Books, Remove;
    StartedKind(q, i);
    assert q.queue[i] in Dequeue(q, i).flying;
  }

  lemma FinishLively(q: Q, r: Rq, error: int)
    requires Inv(q) && Lively(q) && r in q.flying
    ensures Lively(EndRequest(q, r, error))
  {
    hide Lists, Sequence, Barriers, Completed, CurSeq, ReqSeq;
    if IsProxy(r) {
      ProxyStepOpen(q, r);
    } else {
      CompletedLively(q, r);
    }
  }

  lemma CompletedLively(q: Q, r: Rq)
    requires Inv(q) && Lively(q) && r in q.flying && !IsProxy(r)
    ensures Lively(Completed(q, r))
  {
    hide Lists, Sequence, Barriers, CurSeq, Books;
    var q1, q' := Released(q, r), Completed(q, r);
    ReleasedLists(q, r);
    BooksCount(q1);
    assert q1.flying == {} ==> FlyingAccounted(q1) == {};
    if InSeq(q) && DRAIN !in q.ordseq {
      DrainFirst(q);
    }
  }

  lemma GiveBackLively(q: Q, r: Rq)
    requires Inv(q) && Lively(q) && r in q.flying && !GivesBackStray(q, GiveBack(r))
    ensures Lively(Requeue(q, r))
  {
    hide Lists, Sequence, Barriers, Books, Insert;
    var q', p := Requeue(q, r), RequeuePos(q, r);
    InsertIn(q.queue, p, r);
    InsertHead(q.queue, p, r);
    if InSeq(q) && DRAIN !in q.ordseq {
      GoesToFront(q, r);
    }
  }

  lemma GoesToFront(q: Q, r: Rq)
    requires Inv(q) && r in q.flying && InSeq(q) && DRAIN !in q.ordseq
    ensures ReqSeq(q.orig.color, r) == if r.kind == Fs && r.color != q.orig.color then DONE else DRAIN
    ensures ReqSeq(q.orig.color, r) == DRAIN ==> RequeuePos(q, r) == 0
    ensures ReqSeq(q.orig.color, r) != DRAIN && q.queue != [] && ReqSeq(q.orig.color, q.queue[0]) <= DRAIN ==> RequeuePos(q, r) != 0
  {
    hide Books, Barriers, Ordered;
    assert Known(q, r);
    if IsProxy(r) {
      ProxyStepOpen(q, r);
    }
  }

  lemma StepLively(q: Q, s: Step)
    requires Inv(q) && Lively(q) && Enabled(q, s) && !GivesBackStray(q, s)
    ensures Lively(Apply(q, s))
  {
    hide Inv, Peek, EndRequest, Requeue, Dequeue, Dispatch;
    match s
    case InsertSort(r) =>
    case InsertFront(r) =>
    case InsertBack(r) =>
    case Handover(r, p) => HandoverLively(q, r, p);
    case Next(mode) => NextLively(q, mode);
    case Take(i) => TakeLively(q, i);
    case Finish(r, error) => FinishLively(q, r, error);
    case GiveBack(r) => GiveBackLively(q, r);
  }

  lemma {:induction false} RunLively(states: seq<Q>, steps: seq<Step>, i: nat)
    requires IsRun(states, steps) && i < |states| && forall n | 0 <= n < i :: !GivesBackStray(states[n], steps[n])
    ensures Inv(states[i]) && Lively(states[i])
  {
    hide Inv, Apply, Enabled, Lively, GivesBackStray;
    RunKeeps(states, steps, i);
    if i == 0 {
      IdleLively(states[0]);
    } else {
      RunLively(states, steps, i - 1);
      StepLively(states[i - 1], steps[i - 1]);
    }
  }

  lemma IdleLively(q: Q)
    requires Idle(q)
    ensures Lively(q)
  {
  }

  /**
   No run hangs, in tag and drain mode alike, unless during a drain the driver gives back a request of the other
   colour: when everything it was given has ended or been given back, a look at the queue hands something out or
   ends the barrier at its head, and a running sequence always has something on the queue.
   */
  lemma NeverHangs(states: seq<Q>, steps: seq<Step>, i: nat, next: Option<Mode>)
    requires IsRun(states, steps) && i < |states| && forall n | 0 <= n < i :: !GivesBackStray(states[n], steps[n])
    requires states[i].flying == {}
    ensures InSeq(states[i]) ==> states[i].queue != []
    ensures states[i].queue != [] ==> Peek(states[i], next).1 != Return(None)
  {
    hide IsRun, Inv, Draining, GivesBackStray, Peek;
    RunLively(states, steps, i);
    HandsOutSomething(states[i], next);
  }

  lemma NoStrayFlying(q: Q, r: Rq)
    requires Inv(q) && Drained(q) && InSeq(q) && DRAIN !in q.ordseq && r in q.flying && r.kind == Fs
    ensures r.color == q.orig.color
  {
    hide Sequence, Books, Ordered;
    assert Known(q, r) && Unfinished(q, r);
  }

  /** In drain mode that never happens. */
  lemma DrainModeNeverHangs(states: seq<Q>, steps: seq<Step>, i: nat, next: Option<Mode>)
    requires IsRun(states, steps) && i < |states| && states[i].flying == {} && forall s | s in steps :: DrainStep(s)
    ensures InSeq(states[i]) ==> states[i].queue != []
    ensures states[i].queue != [] ==> Peek(states[i], next).1 != Return(None)
  {
    hide Inv, Drained, Peek, Apply;
    IdleDrained(states[0]);
    forall n | 0 <= n < i ensures !GivesBackStray(states[n], steps[n]) {
      RunDrained(states, steps, 0, n);
      assert Enabled(states[n], steps[n]);
      if GivesBackStray(states[n], steps[n]) {
        NoStrayFlying(states[n], steps[n].r);
      }
    }
    NeverHangs(states, steps, i, next);
  }

  /**
   And when it does, and nothing else is left at the driver, the queue hangs if and only if nothing of the barrier's
   colour is first on it.
   */
  lemma StrayHangs(q: Q, r: Rq, next: Option<Mode>)
    requires Inv(q) && r in q.flying && GivesBackStray(q, GiveBack(r)) && q.flying == {r}
    ensures Requeue(q, r).queue != []
    ensures Peek(Requeue(q, r), next).1 == Return(None) <==> q.queue == [] || ReqSeq(q.orig.color, q.queue[0]) > DRAIN
  {
    hide Lists, Books, Barriers, Places, Insert;
    var p := RequeuePos(q, r);
    InsertIn(q.queue, p, r);
    InsertHead(q.queue, p, r);
    GoesToFront(q, r);
    DrainFirst(q);
  }
}
