/**
 Exactly when drain mode is safe from a state between two sequences on: when no unfinished request is astray.
 One half is Barrier.SafetyFrom; for the other any such request can be made to be overtaken.
 */
module BarrierExact {
  import opened Barrier

  // ------------------------------------------------------------- continuations

  /** q' is reached from q by these steps, all in drain mode. */
  ghost predicate Goes(q: Q, steps: seq<Step>, q': Q)
    decreases |steps|
  {
    if steps == [] then q' == q
    else Enabled(q, steps[0]) && DrainStep(steps[0]) && Goes(Apply(q, steps[0]), steps[1..], q')
  }

  /** Whatever is handed out after whatever steps in drain mode is handed out safely. */
  ghost predicate SafeFrom(q: Q) {
    forall steps, q', mode, r ::
      Goes(q, steps, q') && HandsOut(q', mode, r) ==> HandedOutSafely(Peek(q', Some(mode)).0, r)
  }

  ghost predicate HandsOut(q: Q, mode: Mode, r: Rq) {
    q.queue != [] && !mode.byTag && Peek(q, Some(mode)).1 == Return(Some(r))
  }

  lemma {:induction false} GoesDrained(q: Q, steps: seq<Step>, q': Q)
    requires Inv(q) && Drained(q) && Goes(q, steps, q')
    ensures Inv(q') && Drained(q')
    decreases |steps|
  {
    if steps != [] {
      hide Inv, Drained, Apply, Enabled;
      StepKeeps(q, steps[0]);
      StepDrained(q, steps[0]);
      GoesDrained(Apply(q, steps[0]), steps[1..], q');
    }
  }

  lemma DrainedIsSafe(q: Q, steps: seq<Step>, q': Q, mode: Mode, r: Rq)
    requires Inv(q) && Drained(q) && Goes(q, steps, q') && HandsOut(q', mode, r)
    ensures HandedOutSafely(Peek(q', Some(mode)).0, r)
  {
    hide Inv, Drained, Peek, HandedOutSafely;
    GoesDrained(q, steps, q');
    PeekKeeps(q', Some(mode));
    NextDrained(q', Some(mode));
    PeekReturns(q', Some(mode), r);
    StartedIsSafe(Peek(q', Some(mode)).0, r);
  }

  lemma {:induction false} GoesOn(q: Q, a: seq<Step>, m: Q, b: seq<Step>, q': Q)
    requires Goes(q, a, m) && Goes(m, b, q')
    ensures Goes(q, a + b, q')
    decreases |a|
  {
    hide Enabled, Apply;
    if a == [] {
      assert a + b == b;
    } else {
      GoesOn(Apply(q, a[0]), a[1..], m, b, q');
      assert (a + b)[0] == a[0] && (a + b)[1..] == a[1..] + b;
    }
  }

  lemma GoesOne(q: Q, s: Step)
    requires Enabled(q, s) && DrainStep(s)
    ensures Goes(q, [s], Apply(q, s))
  {
    hide Enabled, Apply;
    assert [s][1..] == [];
    assert Goes(Apply(q, s), [], Apply(q, s));
  }

  lemma GoesOneMore(q: Q, steps: seq<Step>, m: Q, s: Step)
    requires Goes(q, steps, m) && Enabled(m, s) && DrainStep(s)
    ensures Goes(q, steps + [s], Apply(m, s))
  {
    hide Goes, Enabled, Apply;
    GoesOne(m, s);
    GoesOn(q, steps, m, [s], Apply(m, s));
  }

  // --------------------------------------------------- clearing the way to the barrier

  /** A state between sequences with a request astray. */
  ghost predicate Lost(q: Q, r: Rq) {
    Inv(q) && !InSeq(q) && Astray(q, r)
  }

  /** Everything the I/O scheduler holds is handed over, to the tail. */
  lemma {:induction false} HandAll(q: Q, r: Rq) returns (steps: seq<Step>, q': Q)
    requires Lost(q, r)
    ensures Goes(q, steps, q') && Lost(q', r) && q'.sorter == {} && q'.h == q.h
    decreases |q.sorter|
  {
    if q.sorter == {} {
      steps, q' := [], q;
    } else {
      var x :| x in q.sorter;
      var s := Handover(x, |q.queue|);
      HandOne(q, r, x);
      hide Lost;
      GoesOne(q, s);
      var rest, q2 := HandAll(Apply(q, s), r);
      GoesOn(q, [s], Apply(q, s), rest, q2);
      steps, q' := [s] + rest, q2;
    }
  }

  lemma HandOne(q: Q, r: Rq, x: Rq)
    requires Lost(q, r) && x in q.sorter
    ensures var s := Handover(x, |q.queue|);
            Enabled(q, s) && Lost(Apply(q, s), r) && Apply(q, s).sorter == q.sorter - {x} && Apply(q, s).h == q.h
  {
    hide Inv, Insert;
    StepKeeps(q, Handover(x, |q.queue|));
    InsertIn(q.queue, |q.queue|, x);
  }

  lemma {:induction false} Above(s: set<nat>) returns (n: nat)
    ensures forall m | m in s :: m < n
  {
    if s == {} {
      n := 0;
    } else {
      var m :| m in s;
      var k := Above(s - {m});
      n := if m < k then k else m + 1;
      forall x | x in s ensures x < n {
        assert x == m || x in s - {m};
      }
    }
  }

  /** There are names nobody holds. */
  lemma NewName(q: Q) returns (n: nat)
    ensures forall r: Rq :: r.id == n ==> Fresh(q, r)
  {
    var all := SetOf(q.queue) + q.sorter + q.flying + q.soft + q.started;
    var ids := set r | r in all :: r.id;
    n := Above(ids);
    assert forall r | r in all :: r.id in ids;
    assert forall r: Rq | r.id == n :: r !in all;
  }

  /** A barrier is queued if there is none. */
  lemma QueueBarrier(q: Q, r: Rq) returns (steps: seq<Step>, q': Q)
    requires Lost(q, r) && q.sorter == {}
    ensures Goes(q, steps, q') && Lost(q', r) && q'.h.base == q.h.base < |q'.h.bars|
  {
    if q.h.base < |q.h.bars| {
      steps, q' := [], q;
    } else {
      var n := NewName(q);
      var b := Rq(n, Fs, true, false, false, 0);
      var s := InsertBack(b);
      assert q.h.base <= |q.h.bars|;
      BarrierAdded(q, r, b);
      GoesOne(q, s);
      steps, q' := [s], Apply(q, s);
    }
  }

  lemma BarrierAdded(q: Q, r: Rq, b: Rq)
    requires Lost(q, r) && q.sorter == {} && b.kind == Fs && b.barrier && Fresh(q, Coloured(q, b))
    ensures var s := InsertBack(b); Enabled(q, s) && Lost(Apply(q, s), r)
    ensures Apply(q, InsertBack(b)).h.base == q.h.base && |Apply(q, InsertBack(b)).h.bars| == |q.h.bars| + 1
  {
    hide Inv;
    StepKeeps(q, InsertBack(b));
  }

  /** Only pre-flushes are asked for. */
  const PREFLUSHED := Mode(false, true, false, false)

  /** What stands before the first barrier is handed out and taken. */
  lemma {:induction false} Serve(q: Q, r: Rq) returns (steps: seq<Step>, q': Q)
    requires Lost(q, r) && q.h.base < |q.h.bars|
    ensures Goes(q, steps, q') && Lost(q', r) && q'.h == q.h && q'.queue != [] && IsBar(q'.queue[0])
    decreases |q.queue|
  {
    BarrierIsQueued(q);
    if IsBar(q.queue[0]) {
      steps, q' := [], q;
    } else {
      var n := Next(Some(PREFLUSHED));
      ServeOne(q, r);
      hide Lost;
      var q1 := Apply(q, n);
      var q2 := Apply(q1, Take(0));
      GoesOne(q, n);
      GoesOneMore(q, [n], q1, Take(0));
      var rest, q3 := Serve(q2, r);
      GoesOn(q, [n] + [Take(0)], q2, rest, q3);
      steps, q' := [n] + [Take(0)] + rest, q3;
    }
  }

  lemma BarrierIsQueued(q: Q)
    requires Inv(q) && q.h.base < |q.h.bars|
    ensures q.h.bars[q.h.base] in q.queue && q.queue != []
  {
  }

  lemma ServeOne(q: Q, r: Rq)
    requires Lost(q, r) && q.queue != [] && !IsBar(q.queue[0])
    ensures var n := Next(Some(PREFLUSHED));
            && Enabled(q, n) && Enabled(Apply(q, n), Take(0))
            && var q' := Apply(Apply(q, n), Take(0)); Lost(q', r) && q'.h == q.h && |q'.queue| == |q.queue| - 1
  {
    hide Inv;
    var n := Next(Some(PREFLUSHED));
    StepKeeps(q, n);
    assert Apply(q, n) == q.(started := q.started + {q.queue[0]});
    StepKeeps(Apply(q, n), Take(0));
    RemoveHead(q.queue);
  }

  lemma RemoveHead(s: seq<Rq>)
    requires s != []
    ensures |Remove(s, 0)| == |s| - 1 && forall x | x in s :: x == s[0] || x in Remove(s, 0)
  {
    assert Remove(s, 0) == s[1..];
  }

  /** All that is in flight but the one astray is finished. */
  lemma {:induction false} FinishOthers(q: Q, r: Rq) returns (steps: seq<Step>, q': Q)
    requires Lost(q, r) && r in q.flying
    ensures Goes(q, steps, q') && Lost(q', r) && q'.h == q.h && q'.queue == q.queue && q'.flying == {r}
    decreases |q.flying|
  {
    if q.flying == {r} {
      steps, q' := [], q;
    } else {
      var x :| x in q.flying && x != r;
      var s := Finish(x, 0);
      FinishOne(q, r, x);
      hide Lost;
      GoesOne(q, s);
      var rest, q2 := FinishOthers(Apply(q, s), r);
      GoesOn(q, [s], Apply(q, s), rest, q2);
      steps, q' := [s] + rest, q2;
    }
  }

  lemma FinishOne(q: Q, r: Rq, x: Rq)
    requires Lost(q, r) && r in q.flying && x in q.flying && x != r
    ensures var s := Finish(x, 0);
            && Enabled(q, s) && Lost(Apply(q, s), r)
            && Apply(q, s).h == q.h && Apply(q, s).queue == q.queue && Apply(q, s).flying == q.flying - {x}
  {
    NoProxyAbout(q, x);
    hide Inv;
    StepKeeps(q, Finish(x, 0));
  }

  lemma NoProxyAbout(q: Q, x: Rq)
    requires Inv(q) && !InSeq(q) && x in q.flying
    ensures !IsProxy(x)
  {
    hide Lists, Barriers, Books;
    assert Pending(q, x);
  }

  // ------------------------------------------------------------- overtaking it

  /** A barrier is next, and the one in flight is astray. */
  ghost predicate Ready(q: Q, r: Rq) {
    && Lost(q, r) && q.queue != [] && IsBar(q.queue[0]) && q.flying == {r}
    && q.queue[0].color == Odd(q.h.base) && q.queue[0].epoch == q.h.base
    && q.inFlight == 1 && r in q.started && r.color != Odd(q.h.base) && q.queue[0] !in q.started
  }

  lemma BarrierNext(q: Q, r: Rq)
    requires Lost(q, r) && q.queue != [] && IsBar(q.queue[0]) && q.flying == {r}
    ensures Ready(q, r)
  {
    hide Ordered, Sequence;
    HeadEpoch(q);
    HeadNotStarted(q);
    assert Known(q, r);
    assert FlyingAccounted(q) == {r};
  }

  /** The one astray is in flight: behind the barrier there are newer ones only. */
  lemma AstrayFlies(q: Q, r: Rq)
    requires Lost(q, r) && q.queue != [] && IsBar(q.queue[0])
    ensures r in q.flying
  {
    hide Sequence, Books;
    HeadEpoch(q);
    if r in q.sorter {
      SorterEpoch(q, r);
    }
    assert q.queue == [q.queue[0]] + q.queue[1..];
    if r in q.queue[1..] {
      BehindBarrier(q, r);
    }
  }

  /** The sequence of the barrier is started and waits for the drain. */
  ghost predicate Waiting(q: Q, r: Rq) {
    && q.queue != [] && q.queue[0] == PreFlushRq && q.ordseq == {STARTED, POSTFLUSH, BAR} && !q.mode.byTag
    && r.kind == Fs && r.color != q.orig.color && r.epoch < q.orig.epoch
  }

  lemma Starts(q: Q, r: Rq)
    requires Ready(q, r)
    ensures var n := Next(Some(PREFLUSHED));
            && Enabled(q, n)
            && var q' := Apply(q, n);
               Waiting(q', r) && q'.flying == {r} && r in q'.started && q'.inFlight == 1
  {
    hide Inv;
    var q1, m := Stacked(q, PREFLUSHED), PREFLUSHED;
    assert ModeFor(q.queue[0], m) == m && Proxies(m) == [PreFlushRq] && SetOf([PreFlushRq]) == {PreFlushRq};
    assert q1.queue[0] == PreFlushRq && q1.inFlight == 1 && q1.mode == m && q1.ordseq == {STARTED};
    assert Skipped(m, 1) == [POSTFLUSH, BAR] && SetOf([POSTFLUSH, BAR]) == {POSTFLUSH, BAR};
    assert q1.flying == {r} && r in q1.started && q1.orig == q.queue[0];
    hide Stacked, Proxies, Skipped, SetOf, ModeFor;
    assert {STARTED} + {POSTFLUSH, BAR} == {STARTED, POSTFLUSH, BAR};
  }

  /** The request astray is given back, and for its colour put behind the proxy. */
  lemma GoesBehind(q: Q, r: Rq)
    requires Waiting(q, r) && q.flying == {r} && r in q.started && q.inFlight == 1
    ensures Enabled(q, GiveBack(r))
    ensures var q' := Apply(q, GiveBack(r)); Waiting(q', r) && r in q'.queue && q'.flying == {} && q'.inFlight == 0
  {
    hide RequeueAt;
    var p := RequeuePos(q, r);
    assert ReqSeq(q.orig.color, q.queue[0]) < ReqSeq(q.orig.color, r);
    assert p > 0;
    InsertIn(q.queue, p, r);
    assert Insert(q.queue, p, r)[0] == q.queue[0];
    assert {r} - {r} == {};
  }

  /** A special request passes. */
  lemma SpecialPasses(q: Q, r: Rq, s: Rq) returns (steps: seq<Step>, q': Q)
    requires Waiting(q, r) && q.flying == {} && q.inFlight == 0
    requires s.kind == Special && !s.barrier && Fresh(q, Coloured(q, s))
    ensures Goes(q, steps, q') && Enabled(q', Finish(Coloured(q, s), 0)) && Waiting(q', r)
    ensures q' == q.(flying := {Coloured(q, s)}, soft := q'.soft, started := q'.started)
  {
    hide Goes;
    var x, n := Coloured(q, s), Next(Some(PREFLUSHED));
    var q1 := AddFront(q, s);
    GoesOne(q, InsertFront(s));
    var q2 := q1.(started := q1.started + {x});
    SpecialOut(q1, x);
    GoesOneMore(q, [InsertFront(s)], q1, n);
    SpecialTaken(q2, x, q.queue);
    GoesOneMore(q, [InsertFront(s)] + [n], q2, Take(0));
    steps, q' := [InsertFront(s)] + [n] + [Take(0)], Apply(q2, Take(0));
    assert {} + {x} == {x};
  }

  lemma SpecialOut(q: Q, x: Rq)
    requires q.queue != [] && q.queue[0] == x && x.kind == Special && InSeq(q)
    ensures var n := Next(Some(PREFLUSHED)); Enabled(q, n) && Apply(q, n) == q.(started := q.started + {x})
  {
  }

  lemma SpecialTaken(q: Q, x: Rq, rest: seq<Rq>)
    requires q.queue == [x] + rest && x in q.started && x.kind == Special
    ensures Enabled(q, Take(0)) && Apply(q, Take(0)) == q.(queue := rest, flying := q.flying + {x})
  {
    assert Remove(q.queue, 0) == rest;
  }

  /** Its end is the end of the drain. */
  lemma SpecialEnds(q: Q, r: Rq, x: Rq)
    requires Waiting(q, r) && q.flying == {x} && q.inFlight == 0 && x.kind == Special
    ensures var q' := EndRequest(q, x, 0);
            q' == q.(ordseq := {STARTED, POSTFLUSH, BAR, DRAIN}, flying := {}, soft := q'.soft, started := q'.started,
                     h := q'.h, orderr := q'.orderr)
  {
    assert SetOf([DRAIN]) == {DRAIN} && {STARTED, POSTFLUSH, BAR} + {DRAIN} == {STARTED, POSTFLUSH, BAR, DRAIN};
    assert {x} - {x} == {};
  }

  /** The proxy is handed out, the older request still waiting behind it. */
  lemma Overtakes(q: Q, r: Rq)
    requires q.queue != [] && q.queue[0] == PreFlushRq && q.ordseq == {STARTED, POSTFLUSH, BAR, DRAIN} && !q.mode.byTag
    requires r in q.queue && r.kind == Fs && r.epoch < q.orig.epoch
    ensures HandsOut(q, PREFLUSHED, PreFlushRq) && !HandedOutSafely(Peek(q, Some(PREFLUSHED)).0, PreFlushRq)
  {
    assert Unfinished(Peek(q, Some(PREFLUSHED)).0, r);
  }

  /** From a state that is ready: an unsafe hand-out. */
  lemma ReadyIsUnsafe(q: Q, r: Rq) returns (steps: seq<Step>, q': Q)
    requires Ready(q, r)
    ensures Goes(q, steps, q') && HandsOut(q', PREFLUSHED, PreFlushRq)
    ensures !HandedOutSafely(Peek(q', Some(PREFLUSHED)).0, PreFlushRq)
  {
    hide Goes, Enabled, HandsOut, HandedOutSafely, Peek, Ready, EndRequest, Requeue;
    var n := Next(Some(PREFLUSHED));
    Starts(q, r);
    GoesOne(q, n);
    var q1 := Apply(q, n);
    GoesBehind(q1, r);
    GoesOneMore(q, [n], q1, GiveBack(r));
    var q2 := Apply(q1, GiveBack(r));
    var id := NewName(q2);
    var s := Rq(id, Special, false, false, false, 0);
    assert Coloured(q2, s).id == id;
    var x := Coloured(q2, s);
    var c, q3 := SpecialPasses(q2, r, s);
    GoesOn(q, [n] + [GiveBack(r)], q2, c, q3);
    SpecialEnds(q3, r, x);
    GoesOneMore(q, [n] + [GiveBack(r)] + c, q3, Finish(x, 0));
    steps, q' := [n] + [GiveBack(r)] + c + [Finish(x, 0)], Apply(q3, Finish(x, 0));
    Overtakes(q', r);
  }

  lemma AstrayIsOvertaken(q: Q, r: Rq) returns (steps: seq<Step>, q': Q)
    requires Lost(q, r)
    ensures Goes(q, steps, q') && HandsOut(q', PREFLUSHED, PreFlushRq)
    ensures !HandedOutSafely(Peek(q', Some(PREFLUSHED)).0, PreFlushRq)
  {
    hide Goes, Lost, HandsOut, HandedOutSafely, Peek;
    var a, q1 := HandAll(q, r);
    var b, q2 := QueueBarrier(q1, r);
    GoesOn(q, a, q1, b, q2);
    var c, q3 := Serve(q2, r);
    GoesOn(q, a + b, q2, c, q3);
    AstrayFlies(q3, r);
    var d, q4 := FinishOthers(q3, r);
    GoesOn(q, a + b + c, q3, d, q4);
    BarrierNext(q4, r);
    var e, q5 := ReadyIsUnsafe(q4, r);
    GoesOn(q, a + b + c + d, q4, e, q5);
    steps, q' := a + b + c + d + e, q5;
  }

  /**
   From a state between sequences every continuation in drain mode hands out safely exactly if no unfinished
   filesystem request from before the last barrier is of the colour that the next barrier does not have.
   */
  lemma SafeIffNoneAstray(q: Q)
    requires Inv(q) && !InSeq(q)
    ensures SafeFrom(q) <==> forall r :: !Astray(q, r)
  {
    hide Inv, Goes, HandedOutSafely, Peek, Drained, Astray;
    if forall r :: !Astray(q, r) {
      QuietIsDrained(q);
      forall steps, q', mode, r | Goes(q, steps, q') && HandsOut(q', mode, r)
        ensures HandedOutSafely(Peek(q', Some(mode)).0, r)
      {
        DrainedIsSafe(q, steps, q', mode, r);
      }
    } else {
      var r :| Astray(q, r);
      var steps, q' := AstrayIsOvertaken(q, r);
    }
  }

  /** So at every point between sequences of every run, whatever modes it used. */
  lemma RunSafeIff(states: seq<Q>, steps: seq<Step>, k: nat)
    requires IsRun(states, steps) && k < |states| && !InSeq(states[k])
    ensures SafeFrom(states[k]) <==> forall r :: !Astray(states[k], r)
  {
    hide Inv, SafeFrom, Astray;
    RunKeeps(states, steps, k);
    SafeIffNoneAstray(states[k]);
  }

  // --------------------------------------------------------- a drain that leaves something

  /**
   A barrier is added to an idle queue although the drain may have left requests with the scheduler: its
   first proxy is handed out at once, and safely exactly if nothing was left.
   */
  lemma AddedSafelyIff(q: Q, b: Rq)
    requires Inv(q) && !InSeq(q) && q.queue == [] && q.inFlight == 0
    requires b.kind == Fs && b.barrier && Fresh(q, Coloured(q, b))
    ensures var q' := AddBack(q, b);
            && HandsOut(q', PREFLUSHED, PreFlushRq)
            && (HandedOutSafely(Peek(q', Some(PREFLUSHED)).0, PreFlushRq) <==> q.sorter == {})
  {
    hide Ordered, Sequence;
    var q' := AddBack(q, b);
    StartsAtOnce(q, b);
    hide AddBack, Peek;
    var r := Peek(q', Some(PREFLUSHED)).0;
    if q.sorter != {} {
      var x :| x in q.sorter;
      SorterEpoch(q, x);
      assert Sorted(x, |q.h.bars|);
      assert Unfinished(r, x);
    } else {
      forall u: Rq | u.kind == Fs ensures !Unfinished(r, u) {
        EmptyFlying(q, u);
      }
    }
  }

  lemma StartsAtOnce(q: Q, b: Rq)
    requires !InSeq(q) && q.queue == [] && q.inFlight == 0 && b.kind == Fs && b.barrier && Fresh(q, Coloured(q, b))
    ensures var q' := AddBack(q, b);
            && HandsOut(q', PREFLUSHED, PreFlushRq)
            && var r := Peek(q', Some(PREFLUSHED)).0;
               && r.queue == [PreFlushRq] && r.sorter == q.sorter && r.flying == q.flying && r.orig == Coloured(q, b)
               && r.ordseq == {STARTED, POSTFLUSH, BAR, DRAIN}
  {
    var q', m, x := AddBack(q, b), PREFLUSHED, Coloured(q, b);
    assert q'.queue == [x] && q'.queue[1..] == [];
    var q1 := Stacked(q', m);
    assert ModeFor(x, m) == m && Proxies(m) == [PreFlushRq];
    assert [PreFlushRq] + [] == [PreFlushRq];
    assert q1.queue == [PreFlushRq] && q1.inFlight == 0 && q1.mode == m && q1.ordseq == {STARTED} && q1.orig == x;
    assert q1.sorter == q.sorter && q1.flying == q.flying;
    assert Skipped(m, 0) == [POSTFLUSH, BAR, DRAIN] && SetOf([POSTFLUSH, BAR, DRAIN]) == {POSTFLUSH, BAR, DRAIN};
    hide Stacked, Proxies, Skipped, SetOf, ModeFor;
    assert {STARTED} + {POSTFLUSH, BAR, DRAIN} == {STARTED, POSTFLUSH, BAR, DRAIN};
  }
}
