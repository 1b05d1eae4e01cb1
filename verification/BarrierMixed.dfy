/** Why drain mode must not follow tag mode while requests from before the last barrier are still about. */
module BarrierMixed {
  import opened Barrier

  const R0 := Rq(1, Fs, false, false, false, 0)
  const R1 := Rq(2, Fs, false, false, false, 0)
  const B0 := Rq(3, Fs, true, false, false, 0)
  const B1 := Rq(4, Fs, true, false, true, 1)

  const TAG := Mode(true, false, true, false)
  const DRAINING := Mode(false, false, true, false)

  const ALL_BUT_BAR := {STARTED, POSTFLUSH, PREFLUSH, DRAIN}
  const END0 := End(B0, 0, [POSTFLUSH, PREFLUSH, DRAIN, BAR], [0, 0])

  /** Before the first barrier. */
  ghost function Plain(queue: seq<Rq>, sorter: set<Rq>, flying: set<Rq>, started: set<Rq>, inFlight: int): Q {
    Q(queue, sorter, flying, started, {}, {}, DRAINING, B0, 0, inFlight, false, History([], 0, [], [], []))
  }

  lemma TwoQueued()
    ensures var q := Plain([], {}, {}, {}, 0); Idle(q) && Enabled(q, InsertSort(R0))
    ensures Apply(Plain([], {}, {}, {}, 0), InsertSort(R0)) == Plain([], {R0}, {}, {}, 0)
    ensures var q := Plain([], {R0}, {}, {}, 0);
            Enabled(q, InsertSort(R1)) && Apply(q, InsertSort(R1)) == Plain([], {R0, R1}, {}, {}, 0)
  {
    assert {} + {R0} == {R0} && {R0} + {R1} == {R0, R1};
  }

  lemma TwoHandedOver()
    ensures var q := Plain([], {R0, R1}, {}, {}, 0);
            Enabled(q, Handover(R0, 0)) && Apply(q, Handover(R0, 0)) == Plain([R0], {R1}, {}, {}, 0)
    ensures var q := Plain([R0], {R1}, {}, {}, 0);
            Enabled(q, Handover(R1, 1)) && Apply(q, Handover(R1, 1)) == Plain([R0, R1], {}, {}, {}, 0)
  {
    assert {R0, R1} - {R0} == {R1} && {R1} - {R1} == {};
    assert Insert([], 0, R0) == [R0] && Insert([R0], 1, R1) == [R0, R1];
  }

  lemma FirstOut()
    ensures var q := Plain([R0, R1], {}, {}, {}, 0);
            Enabled(q, Next(Some(DRAINING))) && Apply(q, Next(Some(DRAINING))) == Plain([R0, R1], {}, {}, {R0}, 0)
    ensures var q := Plain([R0, R1], {}, {}, {R0}, 0);
            Enabled(q, Take(0)) && Apply(q, Take(0)) == Plain([R1], {}, {R0}, {R0}, 1)
  {
    assert {} + {R0} == {R0} && Remove([R0, R1], 0) == [R1];
  }

  lemma SecondOut()
    ensures var q := Plain([R1], {}, {R0}, {R0}, 1);
            Enabled(q, Next(Some(DRAINING))) && Apply(q, Next(Some(DRAINING))) == Plain([R1], {}, {R0}, {R0, R1}, 1)
    ensures var q := Plain([R1], {}, {R0}, {R0, R1}, 1);
            Enabled(q, Take(0)) && Apply(q, Take(0)) == Plain([], {}, {R0, R1}, {R0, R1}, 2)
  {
    assert {R0} + {R1} == {R0, R1} && Remove([R1], 0) == [];
  }

  /** Around the first barrier, which is ordered by tag. */
  ghost function Tagged(queue: seq<Rq>, flying: set<Rq>, started: set<Rq>, soft: set<Rq>, ordseq: set<nat>, mode: Mode,
                        inFlight: int, h: History): Q {
    Q(queue, {}, flying, started, soft, ordseq, mode, B0, 0, inFlight, true, h)
  }

  const H0 := History([B0], 0, [], [], [])
  const H1 := History([B0], 1, [POSTFLUSH, PREFLUSH, DRAIN], [0], [])
  const H2 := History([B0], 1, [POSTFLUSH, PREFLUSH, DRAIN, BAR], [0, 0], [END0])

  lemma FirstBarrier()
    ensures var q := Plain([], {}, {R0, R1}, {R0, R1}, 2);
            Enabled(q, InsertBack(B0)) && Apply(q, InsertBack(B0)) == Tagged([B0], {R0, R1}, {R0, R1}, {B0}, {}, DRAINING, 2, H0)
  {
    assert [] + [B0] == [B0] && {} + {B0} == {B0};
  }

  lemma TagStacked()
    ensures Stacked(Tagged([B0], {R0, R1}, {R0, R1}, {B0}, {}, DRAINING, 2, H0), TAG) ==
            Tagged([BarRq], {R0, R1}, {R0, R1}, {B0, BarRq}, {STARTED}, TAG, 2, History([B0], 1, [], [], []))
  {
    assert Proxies(TAG) == [BarRq] && SetOf([BarRq]) == {BarRq};
    hide Proxies, SetOf;
    assert [BarRq] + [B0][1..] == [BarRq] && {R0, R1} - {BarRq} == {R0, R1} && {B0} + {BarRq} == {B0, BarRq};
  }

  lemma TagStarts()
    ensures var q := Tagged([B0], {R0, R1}, {R0, R1}, {B0}, {}, DRAINING, 2, H0);
            && Enabled(q, Next(Some(TAG)))
            && Apply(q, Next(Some(TAG))) ==
               Tagged([BarRq], {R0, R1}, {R0, R1, BarRq}, {B0, BarRq}, ALL_BUT_BAR, TAG, 2, H1)
  {
    TagOrdered();
    hide StartOrdered;
    assert {R0, R1} + {BarRq} == {R0, R1, BarRq};
  }

  lemma TagOrdered()
    ensures StartOrdered(Tagged([B0], {R0, R1}, {R0, R1}, {B0}, {}, DRAINING, 2, H0), TAG) ==
            (Tagged([BarRq], {R0, R1}, {R0, R1}, {B0, BarRq}, ALL_BUT_BAR, TAG, 2, H1), Return(Some(BarRq)))
  {
    TagStacked();
    TagSkips();
    Started(Tagged([B0], {R0, R1}, {R0, R1}, {B0}, {}, DRAINING, 2, H0), TAG, [POSTFLUSH, PREFLUSH, DRAIN]);
  }

  /** start_ordered for a mode that asks for the barrier's proxy only. */
  lemma Started(q: Q, next: Mode, skip: seq<nat>)
    requires q.queue != [] && !q.queue[0].empty && next.bar && !next.preflush && !next.postflush
    requires skip == [POSTFLUSH, PREFLUSH] + if next.byTag || Stacked(q, next).inFlight == 0 then [DRAIN] else []
    requires CompleteSeq(Stacked(q, next), skip, 0).ordseq != {}
    ensures StartOrdered(q, next) ==
            (CompleteSeq(Stacked(q, next), skip, 0), Return(if DRAIN in skip then Some(BarRq) else None))
  {
    assert Proxies(next) == [BarRq] && Stacked(q, next).mode == next;
    hide CompleteSeq, Proxies, Stacked;
    assert Skipped(next, Stacked(q, next).inFlight) == skip;
  }

  lemma TagSkips()
    ensures CompleteSeq(Tagged([BarRq], {R0, R1}, {R0, R1}, {B0, BarRq}, {STARTED}, TAG, 2, History([B0], 1, [], [], [])),
                        [POSTFLUSH, PREFLUSH, DRAIN], 0) ==
            Tagged([BarRq], {R0, R1}, {R0, R1}, {B0, BarRq}, ALL_BUT_BAR, TAG, 2, H1)
  {
    assert SetOf([POSTFLUSH, PREFLUSH, DRAIN]) == {POSTFLUSH, PREFLUSH, DRAIN};
    hide SetOf;
    assert {STARTED} + {POSTFLUSH, PREFLUSH, DRAIN} == ALL_BUT_BAR;
  }

  lemma TagTaken()
    ensures var q := Tagged([BarRq], {R0, R1}, {R0, R1, BarRq}, {B0, BarRq}, ALL_BUT_BAR, TAG, 2, H1);
            && Enabled(q, Take(0))
            && Apply(q, Take(0)) == Tagged([], {R0, R1, BarRq}, {R0, R1, BarRq}, {B0, BarRq}, ALL_BUT_BAR, TAG, 3, H1)
  {
    assert Remove([BarRq], 0) == [] && {R0, R1} + {BarRq} == {R0, R1, BarRq};
  }

  lemma TagEnds()
    ensures var q := Tagged([], {R0, R1, BarRq}, {R0, R1, BarRq}, {B0, BarRq}, ALL_BUT_BAR, TAG, 3, H1);
            && Enabled(q, Finish(BarRq, 0))
            && Apply(q, Finish(BarRq, 0)) == Tagged([], {R0, R1}, {R0, R1}, {B0}, {}, TAG, 2, H2)
  {
    assert {R0, R1, BarRq} - {BarRq} == {R0, R1} && {B0, BarRq} - {BarRq} == {B0};
    assert SetOf([BAR]) == {BAR};
    assert [POSTFLUSH, PREFLUSH, DRAIN] + [BAR] == [POSTFLUSH, PREFLUSH, DRAIN, BAR] && [0] + [0] == [0, 0];
  }

  /** Around the second barrier, which is to be ordered by draining. */
  ghost function Draining(queue: seq<Rq>, flying: set<Rq>, started: set<Rq>, soft: set<Rq>, ordseq: set<nat>, inFlight: int,
                          h: History): Q {
    Q(queue, {}, flying, started, soft, ordseq, DRAINING, B1, 0, inFlight, false, h)
  }

  const H3 := History([B0, B1], 1, [POSTFLUSH, PREFLUSH, DRAIN, BAR], [0, 0], [END0])
  const H4 := History([B0, B1], 2, [POSTFLUSH, PREFLUSH], [0], [END0])
  const H5 := History([B0, B1], 2, [POSTFLUSH, PREFLUSH, DRAIN], [0, 0], [END0])

  ghost function SecondQueued(): Q {
    Q([B1], {}, {R0, R1}, {R0, R1}, {B0, B1}, {}, TAG, B0, 0, 2, false, H3)
  }

  lemma SecondBarrier()
    ensures var q := Tagged([], {R0, R1}, {R0, R1}, {B0}, {}, TAG, 2, H2);
            Enabled(q, InsertBack(B1)) && Apply(q, InsertBack(B1)) == SecondQueued()
  {
    assert [] + [B1] == [B1] && {B0} + {B1} == {B0, B1} && [B0] + [B1] == [B0, B1];
  }

  lemma DrainStacked()
    ensures Stacked(SecondQueued(), DRAINING) ==
            Draining([BarRq], {R0, R1}, {R0, R1}, {B0, B1, BarRq}, {STARTED}, 2, History([B0, B1], 2, [], [], [END0]))
  {
    assert Proxies(DRAINING) == [BarRq] && SetOf([BarRq]) == {BarRq};
    hide Proxies, SetOf;
    assert [BarRq] + [B1][1..] == [BarRq] && {R0, R1} - {BarRq} == {R0, R1} && {B0, B1} + {BarRq} == {B0, B1, BarRq};
  }

  lemma DrainStarts()
    ensures var q := SecondQueued();
            && Enabled(q, Next(Some(DRAINING)))
            && Apply(q, Next(Some(DRAINING))) ==
               Draining([BarRq], {R0, R1}, {R0, R1}, {B0, B1, BarRq}, {STARTED, POSTFLUSH, PREFLUSH}, 2, H4)
  {
    DrainOrdered();
    hide StartOrdered;
  }

  lemma DrainOrdered()
    ensures StartOrdered(SecondQueued(), DRAINING) ==
            (Draining([BarRq], {R0, R1}, {R0, R1}, {B0, B1, BarRq}, {STARTED, POSTFLUSH, PREFLUSH}, 2, H4), Return(None))
  {
    DrainStacked();
    DrainSkips();
    Started(SecondQueued(), DRAINING, [POSTFLUSH, PREFLUSH]);
  }

  lemma DrainSkips()
    ensures CompleteSeq(Draining([BarRq], {R0, R1}, {R0, R1}, {B0, B1, BarRq}, {STARTED}, 2, History([B0, B1], 2, [], [], [END0])),
                        [POSTFLUSH, PREFLUSH], 0) ==
            Draining([BarRq], {R0, R1}, {R0, R1}, {B0, B1, BarRq}, {STARTED, POSTFLUSH, PREFLUSH}, 2, H4)
  {
    assert SetOf([POSTFLUSH, PREFLUSH]) == {POSTFLUSH, PREFLUSH};
    hide SetOf;
    assert {STARTED} + {POSTFLUSH, PREFLUSH} == {STARTED, POSTFLUSH, PREFLUSH};
  }

  /** R0 is given back; by its colour it belongs behind the barrier. */
  lemma GivenBack()
    ensures var q := Draining([BarRq], {R0, R1}, {R0, R1}, {B0, B1, BarRq}, {STARTED, POSTFLUSH, PREFLUSH}, 2, H4);
            && Enabled(q, GiveBack(R0))
            && Apply(q, GiveBack(R0)) ==
               Draining([BarRq, R0], {R1}, {R1}, {B0, B1, BarRq, R0}, {STARTED, POSTFLUSH, PREFLUSH}, 1, H4)
  {
    var q := Draining([BarRq], {R0, R1}, {R0, R1}, {B0, B1, BarRq}, {STARTED, POSTFLUSH, PREFLUSH}, 2, H4);
    assert [BarRq][1..] == [];
    assert RequeueAt([BarRq], true, DONE) == 1;
    assert RequeuePos(q, R0) == 1;
    assert Insert([BarRq], 1, R0) == [BarRq, R0];
    assert {R0, R1} - {R0} == {R1} && {B0, B1, BarRq} + {R0} == {B0, B1, BarRq, R0};
  }

  lemma DrainEnds()
    ensures var q := Draining([BarRq, R0], {R1}, {R1}, {B0, B1, BarRq, R0}, {STARTED, POSTFLUSH, PREFLUSH}, 1, H4);
            && Enabled(q, Finish(R1, 0))
            && Apply(q, Finish(R1, 0)) == Draining([BarRq, R0], {}, {}, {B0, B1, BarRq, R0}, ALL_BUT_BAR, 0, H5)
  {
    assert {R1} - {R1} == {} && {B0, B1, BarRq, R0} - {R1} == {B0, B1, BarRq, R0};
    assert SetOf([DRAIN]) == {DRAIN} && {STARTED, POSTFLUSH, PREFLUSH} + {DRAIN} == ALL_BUT_BAR;
    assert [POSTFLUSH, PREFLUSH] + [DRAIN] == [POSTFLUSH, PREFLUSH, DRAIN] && [0] + [0] == [0, 0];
  }

  lemma BarHandedOut()
    ensures var q := Draining([BarRq, R0], {}, {}, {B0, B1, BarRq, R0}, ALL_BUT_BAR, 0, H5);
            && Enabled(q, Next(Some(DRAINING))) && Peek(q, Some(DRAINING)).1 == Return(Some(BarRq))
            && Apply(q, Next(Some(DRAINING))) == Draining([BarRq, R0], {}, {BarRq}, {B0, B1, BarRq, R0}, ALL_BUT_BAR, 0, H5)
            && !HandedOutSafely(Apply(q, Next(Some(DRAINING))), BarRq)
  {
    assert {} + {BarRq} == {BarRq};
    var r := Draining([BarRq, R0], {}, {BarRq}, {B0, B1, BarRq, R0}, ALL_BUT_BAR, 0, H5);
    assert R0 in r.queue && Unfinished(r, R0);
  }

  // ------------------------------------------------------------------------ the run

  lemma Extend(states: seq<Q>, steps: seq<Step>, s: Step, q: Q)
    requires IsRun(states, steps) && Enabled(states[|steps|], s) && Apply(states[|steps|], s) == q
    ensures IsRun(states + [q], steps + [s]) && |states + [q]| == |steps + [s]| + 1
    ensures (states + [q])[|steps + [s]|] == q
  {
    hide Enabled, Apply, Idle;
  }

  lemma BothOut() returns (states: seq<Q>, steps: seq<Step>)
    ensures IsRun(states, steps) && |states| == |steps| + 1 && states[|steps|] == Plain([], {}, {R0, R1}, {R0, R1}, 2)
  {
    hide Enabled, Apply, Idle;
    TwoQueued();
    TwoHandedOver();
    FirstOut();
    SecondOut();
    states := [Plain([], {}, {}, {}, 0), Plain([], {R0}, {}, {}, 0), Plain([], {R0, R1}, {}, {}, 0), Plain([R0], {R1}, {}, {}, 0),
               Plain([R0, R1], {}, {}, {}, 0), Plain([R0, R1], {}, {}, {R0}, 0), Plain([R1], {}, {R0}, {R0}, 1),
               Plain([R1], {}, {R0}, {R0, R1}, 1), Plain([], {}, {R0, R1}, {R0, R1}, 2)];
    steps := [InsertSort(R0), InsertSort(R1), Handover(R0, 0), Handover(R1, 1), Next(Some(DRAINING)), Take(0),
              Next(Some(DRAINING)), Take(0)];
    hide Plain;
  }

  lemma FirstEnded() returns (states: seq<Q>, steps: seq<Step>)
    ensures IsRun(states, steps) && |states| == |steps| + 1
    ensures states[|steps|] == Tagged([], {R0, R1}, {R0, R1}, {B0}, {}, TAG, 2, H2)
  {
    hide IsRun, Enabled, Apply, Plain, Tagged;
    states, steps := BothOut();
    FirstBarrier();
    var q1 := Tagged([B0], {R0, R1}, {R0, R1}, {B0}, {}, DRAINING, 2, H0);
    Extend(states, steps, InsertBack(B0), q1);
    states, steps := states + [q1], steps + [InsertBack(B0)];
    TagStarts();
    var q2 := Tagged([BarRq], {R0, R1}, {R0, R1, BarRq}, {B0, BarRq}, ALL_BUT_BAR, TAG, 2, H1);
    Extend(states, steps, Next(Some(TAG)), q2);
    states, steps := states + [q2], steps + [Next(Some(TAG))];
    TagTaken();
    var q3 := Tagged([], {R0, R1, BarRq}, {R0, R1, BarRq}, {B0, BarRq}, ALL_BUT_BAR, TAG, 3, H1);
    Extend(states, steps, Take(0), q3);
    states, steps := states + [q3], steps + [Take(0)];
    TagEnds();
    var q4 := Tagged([], {R0, R1}, {R0, R1}, {B0}, {}, TAG, 2, H2);
    Extend(states, steps, Finish(BarRq, 0), q4);
    states, steps := states + [q4], steps + [Finish(BarRq, 0)];
  }

  lemma OneGivenBack() returns (states: seq<Q>, steps: seq<Step>)
    ensures IsRun(states, steps) && |states| == |steps| + 1
    ensures states[|steps|] == Draining([BarRq, R0], {R1}, {R1}, {B0, B1, BarRq, R0}, {STARTED, POSTFLUSH, PREFLUSH}, 1, H4)
  {
    hide IsRun, Enabled, Apply, Tagged, SecondQueued, Draining;
    states, steps := FirstEnded();
    SecondBarrier();
    var q1 := SecondQueued();
    Extend(states, steps, InsertBack(B1), q1);
    states, steps := states + [q1], steps + [InsertBack(B1)];
    DrainStarts();
    var q2 := Draining([BarRq], {R0, R1}, {R0, R1}, {B0, B1, BarRq}, {STARTED, POSTFLUSH, PREFLUSH}, 2, H4);
    Extend(states, steps, Next(Some(DRAINING)), q2);
    states, steps := states + [q2], steps + [Next(Some(DRAINING))];
    GivenBack();
    var q3 := Draining([BarRq, R0], {R1}, {R1}, {B0, B1, BarRq, R0}, {STARTED, POSTFLUSH, PREFLUSH}, 1, H4);
    Extend(states, steps, GiveBack(R0), q3);
    states, steps := states + [q3], steps + [GiveBack(R0)];
  }

  /**
   A barrier is ordered by tag while two requests from before it are in flight.  The next barrier is to be
   ordered by draining; one of the two is given back and, for its colour, put behind the barrier; the other
   ends, which ends the drain; and the barrier is handed out before the first.
   */
  lemma TagThenDrainIsUnsafe() returns (states: seq<Q>, steps: seq<Step>)
    ensures IsRun(states, steps) && |steps| > 0 && |states| == |steps| + 1
    ensures var i := |steps| - 1;
            && steps[i] == Next(Some(DRAINING)) && states[i].queue != []
            && Peek(states[i], Some(DRAINING)).1 == Return(Some(BarRq)) && !HandedOutSafely(states[i + 1], BarRq)
  {
    hide IsRun, Enabled, Apply, HandedOutSafely, Peek;
    states, steps := OneGivenBack();
    DrainEnds();
    var q4 := Draining([BarRq, R0], {}, {}, {B0, B1, BarRq, R0}, ALL_BUT_BAR, 0, H5);
    Extend(states, steps, Finish(R1, 0), q4);
    states, steps := states + [q4], steps + [Finish(R1, 0)];
    BarHandedOut();
    var q5 := Draining([BarRq, R0], {}, {BarRq}, {B0, B1, BarRq, R0}, ALL_BUT_BAR, 0, H5);
    Extend(states, steps, Next(Some(DRAINING)), q5);
    var n := |steps|;
    states, steps := states + [q5], steps + [Next(Some(DRAINING))];
    assert states[n] == q4;
  }

  lemma BothGivenBack()
    ensures var q := Draining([BarRq, R0], {R1}, {R1}, {B0, B1, BarRq, R0}, {STARTED, POSTFLUSH, PREFLUSH}, 1, H4);
            && Enabled(q, GiveBack(R1))
            && Apply(q, GiveBack(R1)) ==
               Draining([BarRq, R1, R0], {}, {}, {B0, B1, BarRq, R0, R1}, {STARTED, POSTFLUSH, PREFLUSH}, 0, H4)
  {
    var q := Draining([BarRq, R0], {R1}, {R1}, {B0, B1, BarRq, R0}, {STARTED, POSTFLUSH, PREFLUSH}, 1, H4);
    assert [BarRq, R0][1..] == [R0];
    assert RequeueAt([BarRq, R0], true, DONE) == 1;
    assert RequeuePos(q, R1) == 1;
    assert Insert([BarRq, R0], 1, R1) == [BarRq, R1, R0];
    assert {R1} - {R1} == {} && {B0, B1, BarRq, R0} + {R1} == {B0, B1, BarRq, R0, R1};
  }

  /** If both are given back, the drain waits for requests that stand behind the barrier's proxy: nothing is handed out any more. */
  lemma TagThenDrainHangs() returns (states: seq<Q>, steps: seq<Step>)
    ensures IsRun(states, steps) && |states| == |steps| + 1
    ensures var q := states[|steps|];
            InSeq(q) && q.flying == {} && q.queue != [] && forall next :: Peek(q, next) == (q, Return(None))
  {
    hide IsRun, Enabled, Apply;
    states, steps := OneGivenBack();
    BothGivenBack();
    var q4 := Draining([BarRq, R1, R0], {}, {}, {B0, B1, BarRq, R0, R1}, {STARTED, POSTFLUSH, PREFLUSH}, 0, H4);
    Extend(states, steps, GiveBack(R1), q4);
    states, steps := states + [q4], steps + [GiveBack(R1)];
  }
}
