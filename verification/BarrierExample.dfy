/** One whole barrier sequence, to show that the theorems of Barrier are about something. */
module BarrierExample {
  import opened Barrier

  const Bar1 := Rq(1, Fs, true, false, false, 0)
  const AllSteps := Mode(false, true, true, true)

  /** A drain-ordered queue with the barrier's sequence under way. */
  ghost function Running(queue: seq<Rq>, flying: set<Rq>, started: set<Rq>, soft: set<Rq>, ordseq: set<nat>, inFlight: int,
                         steps: seq<nat>, reported: seq<int>, ended: seq<End>): Q
  {
    Q(queue, {}, flying, started, soft, ordseq, AllSteps, Bar1, 0, inFlight, true, History([Bar1], 1, steps, reported, ended))
  }

  lemma Queueing(q: Q)
    requires q == Q([], {}, {}, {}, {}, {}, AllSteps, Bar1, 0, 0, false, History([], 0, [], [], []))
    ensures Idle(q) && Enabled(q, InsertBack(Bar1))
    ensures Apply(q, InsertBack(Bar1)) ==
            Q([Bar1], {}, {}, {}, {Bar1}, {}, AllSteps, Bar1, 0, 0, true, History([Bar1], 0, [], [], []))
  {
    assert [] + [Bar1] == [Bar1];
    assert {} + {Bar1} == {Bar1};
  }

  lemma Starting(q: Q)
    requires q == Q([Bar1], {}, {}, {}, {Bar1}, {}, AllSteps, Bar1, 0, 0, true, History([Bar1], 0, [], [], []))
    ensures Enabled(q, Next(Some(AllSteps))) && Peek(q, Some(AllSteps)).1 == Return(Some(PreFlushRq))
    ensures Apply(q, Next(Some(AllSteps))) ==
            Running([PreFlushRq, BarRq, PostFlushRq], {}, {PreFlushRq}, {Bar1, PreFlushRq, BarRq, PostFlushRq},
                    {STARTED, DRAIN}, 0, [DRAIN], [0], [])
  {
    var proxies := [PreFlushRq, BarRq, PostFlushRq];
    assert Proxies(AllSteps) == proxies;
    assert SetOf(proxies) == {PreFlushRq, BarRq, PostFlushRq};
    assert Skipped(AllSteps, 0) == [DRAIN] && SetOf([DRAIN]) == {DRAIN};
    hide Proxies, Skipped, SetOf;
    var q1 := Stacked(q, AllSteps);
    assert proxies + q.queue[1..] == proxies;
    assert q1 == Running(proxies, {}, {}, {Bar1, PreFlushRq, BarRq, PostFlushRq}, {STARTED}, 0, [], [], []);
    assert {STARTED} + {DRAIN} == {STARTED, DRAIN};
  }

  lemma HandOut(p: Rq, rest: seq<Rq>, soft: set<Rq>, ordseq: set<nat>, steps: seq<nat>, reported: seq<int>)
    requires IsProxy(p) && ordseq != {} && CurSeq(ordseq) == ReqSeq(false, p)
    ensures var q := Running([p] + rest, {}, {}, soft, ordseq, 0, steps, reported, []);
            && Enabled(q, Next(Some(AllSteps)))
            && Apply(q, Next(Some(AllSteps))) == Running([p] + rest, {}, {p}, soft, ordseq, 0, steps, reported, [])
  {
    hide CurSeq;
    assert {} + {p} == {p};
  }

  lemma TakeIt(p: Rq, rest: seq<Rq>, soft: set<Rq>, ordseq: set<nat>, steps: seq<nat>, reported: seq<int>)
    requires IsProxy(p)
    ensures var q := Running([p] + rest, {}, {p}, soft, ordseq, 0, steps, reported, []);
            && Enabled(q, Take(0))
            && Apply(q, Take(0)) ==
               Running(rest, {p}, {p}, soft, ordseq, if Accounted(p) then 1 else 0, steps, reported, [])
  {
    assert Remove([p] + rest, 0) == rest;
    assert {} + {p} == {p};
  }

  lemma FinishIt(p: Rq, rest: seq<Rq>, soft: set<Rq>, ordseq: set<nat>, steps: seq<nat>, reported: seq<int>)
    requires IsProxy(p) && ordseq != {} && CurSeq(ordseq) == ReqSeq(false, p)
    ensures var q := Running(rest, {p}, {p}, soft, ordseq, if Accounted(p) then 1 else 0, steps, reported, []);
            var n := ReqSeq(false, p);
            && Enabled(q, Finish(p, 0))
            && Apply(q, Finish(p, 0)) ==
               if CurSeq(ordseq + {n}) != DONE
               then Running(rest, {}, {}, soft - {p}, ordseq + {n}, 0, steps + [n], reported + [0], [])
               else Running(rest, {}, {}, soft - {p}, {}, 0, steps + [n], reported + [0],
                            [End(Bar1, 0, steps + [n], reported + [0])])
  {
    hide CurSeq;
    var n := ReqSeq(false, p);
    assert SetOf([n]) == {n};
    assert {p} - {p} == {};
  }

  lemma Extend(states: seq<Q>, steps: seq<Step>, s: Step)
    requires IsRun(states, steps) && Enabled(states[|steps|], s)
    ensures IsRun(states + [Apply(states[|steps|], s)], steps + [s])
  {
    hide Enabled, Apply, Idle;
  }

  /** From handing a proxy out to its end. */
  lemma Cycle(states: seq<Q>, steps: seq<Step>, p: Rq, rest: seq<Rq>, soft: set<Rq>, ordseq: set<nat>, done: seq<nat>, reported: seq<int>)
      returns (states': seq<Q>, steps': seq<Step>)
    requires IsRun(states, steps) && IsProxy(p) && ordseq != {} && CurSeq(ordseq) == ReqSeq(false, p)
    requires states[|steps|] == Running([p] + rest, {}, {p}, soft, ordseq, 0, done, reported, [])
    ensures IsRun(states', steps') && |steps'| == |steps| + 2 && |states'| == |steps'| + 1
    ensures steps' == steps + [Take(0), Finish(p, 0)] && states <= states'
    ensures var n := ReqSeq(false, p);
            states'[|steps'|] ==
            if CurSeq(ordseq + {n}) != DONE
            then Running(rest, {}, {}, soft - {p}, ordseq + {n}, 0, done + [n], reported + [0], [])
            else Running(rest, {}, {}, soft - {p}, {}, 0, done + [n], reported + [0], [End(Bar1, 0, done + [n], reported + [0])])
  {
    hide IsRun, Enabled, Apply, Running, CurSeq;
    TakeIt(p, rest, soft, ordseq, done, reported);
    RunLength(states, steps);
    Extend(states, steps, Take(0));
    states', steps' := states + [Apply(states[|steps|], Take(0))], steps + [Take(0)];
    RunLength(states', steps');
    FinishIt(p, rest, soft, ordseq, done, reported);
    Extend(states', steps', Finish(p, 0));
    states', steps' := states' + [Apply(states'[|steps'|], Finish(p, 0))], steps' + [Finish(p, 0)];
    assert steps + [Take(0)] + [Finish(p, 0)] == steps + [Take(0), Finish(p, 0)];
  }

  lemma RunLength(states: seq<Q>, steps: seq<Step>)
    requires IsRun(states, steps)
    ensures |states| == |steps| + 1
  {
  }

  /** Handing the next proxy out, and on to its end. */
  lemma NextCycle(states: seq<Q>, steps: seq<Step>, p: Rq, rest: seq<Rq>, soft: set<Rq>, ordseq: set<nat>, done: seq<nat>, reported: seq<int>)
      returns (states': seq<Q>, steps': seq<Step>)
    requires IsRun(states, steps) && IsProxy(p) && ordseq != {} && CurSeq(ordseq) == ReqSeq(false, p)
    requires states[|steps|] == Running([p] + rest, {}, {}, soft, ordseq, 0, done, reported, [])
    ensures IsRun(states', steps') && |states'| == |steps'| + 1
    ensures steps' == steps + [Next(Some(AllSteps)), Take(0), Finish(p, 0)]
    ensures var n := ReqSeq(false, p);
            states'[|steps'|] ==
            if CurSeq(ordseq + {n}) != DONE
            then Running(rest, {}, {}, soft - {p}, ordseq + {n}, 0, done + [n], reported + [0], [])
            else Running(rest, {}, {}, soft - {p}, {}, 0, done + [n], reported + [0], [End(Bar1, 0, done + [n], reported + [0])])
  {
    hide IsRun, Enabled, Apply, Running, CurSeq;
    HandOut(p, rest, soft, ordseq, done, reported);
    RunLength(states, steps);
    Extend(states, steps, Next(Some(AllSteps)));
    var states1, steps1 := states + [Apply(states[|steps|], Next(Some(AllSteps)))], steps + [Next(Some(AllSteps))];
    RunLength(states1, steps1);
    states', steps' := Cycle(states1, steps1, p, rest, soft, ordseq, done, reported);
    assert steps1 + [Take(0), Finish(p, 0)] == steps + [Next(Some(AllSteps)), Take(0), Finish(p, 0)];
  }

  /** The barrier is queued, and the pre-flush of its sequence handed out. */
  lemma FirstProxyOut() returns (states: seq<Q>, steps: seq<Step>)
    ensures IsRun(states, steps) && |states| == |steps| + 1 && steps == [InsertBack(Bar1), Next(Some(AllSteps))]
    ensures states[2] == Running([PreFlushRq] + [BarRq, PostFlushRq], {}, {PreFlushRq}, {Bar1, PreFlushRq, BarRq, PostFlushRq},
                                 {STARTED, DRAIN}, 0, [DRAIN], [0], [])
  {
    hide Enabled, Apply, Idle, Running;
    var q0 := Q([], {}, {}, {}, {}, {}, AllSteps, Bar1, 0, 0, false, History([], 0, [], [], []));
    Queueing(q0);
    var q1 := Apply(q0, InsertBack(Bar1));
    Starting(q1);
    assert [PreFlushRq] + [BarRq, PostFlushRq] == [PreFlushRq, BarRq, PostFlushRq];
    states, steps := [q0, q1, Apply(q1, Next(Some(AllSteps)))], [InsertBack(Bar1), Next(Some(AllSteps))];
  }

  /** A run in drain mode in which a barrier goes through all its steps and ends without an error. */
  lemma BarrierRun() returns (states: seq<Q>, steps: seq<Step>)
    ensures IsRun(states, steps) && |states| == |steps| + 1 && forall s | s in steps :: DrainStep(s)
    ensures states[|steps|].h.ended == [End(Bar1, 0, [DRAIN, PREFLUSH, BAR, POSTFLUSH], [0, 0, 0, 0])]
    ensures states[|steps|].queue == [] && !InSeq(states[|steps|])
  {
    hide IsRun, Enabled, Apply, Idle;
    states, steps := FirstProxyOut();
    var soft := {Bar1, PreFlushRq, BarRq, PostFlushRq};
    states, steps := Cycle(states, steps, PreFlushRq, [BarRq, PostFlushRq], soft, {STARTED, DRAIN}, [DRAIN], [0]);
    assert [BarRq] + [PostFlushRq] == [BarRq, PostFlushRq] && [PostFlushRq] + [] == [PostFlushRq];
    states, steps := NextCycle(states, steps, BarRq, [PostFlushRq], soft - {PreFlushRq}, {STARTED, DRAIN} + {PREFLUSH},
                               [DRAIN] + [PREFLUSH], [0] + [0]);
    states, steps := NextCycle(states, steps, PostFlushRq, [], soft - {PreFlushRq} - {BarRq},
                               {STARTED, DRAIN} + {PREFLUSH} + {BAR}, [DRAIN] + [PREFLUSH] + [BAR], [0] + [0] + [0]);
    assert [DRAIN] + [PREFLUSH] + [BAR] + [POSTFLUSH] == [DRAIN, PREFLUSH, BAR, POSTFLUSH];
    assert [0] + [0] + [0] + [0] == [0, 0, 0, 0];
  }
}
