/** Runs of the anticipatory scheduler, from as_init_queue on, in which it does what one would not expect. */
module AsExample {
  import opened SortList
  import opened AsCache
  import opened As

  // ---------------------------------------------------------------- building a run

  /** One more step at the end of a run. */
  lemma {:induction false} Extend(s: St, steps: seq<Step>, m: St, step: Step)
    requires Linked(s) && Runs(Any, s, steps, m) && Linked(m) && Enabled(m, step)
    ensures Runs(Any, s, steps + [step], Apply(m, step)) && Linked(Apply(m, step))
    decreases |steps|
  {
    hide Linked, Apply, Enabled;
    StepLinked(m, step);
    var longer := steps + [step];
    if steps == [] {
      assert longer == [step] && longer[1..] == [];
      assert Runs(Any, Apply(m, step), [], Apply(m, step));
    } else {
      StepLinked(s, steps[0]);
      Extend(Apply(s, steps[0]), steps[1..], m, step);
      assert longer[0] == steps[0] && longer[1..] == steps[1..] + [step];
    }
  }

  /** A request at a free sector joins its direction and nothing else happens. */
  lemma PlainAdd(s: St, x: nat, rq: Rq)
    requires Linked(s) && Found(s) && x !in s.t && s.c.antic == Off
    requires forall y | y in Dir(s, rq.sync).tree :: y in s.t && s.t[y].sector != rq.sector
    ensures var r := Add(s, x, rq, false);
            && r.t == s.t[x := rq] && r.out == s.out && r.nrDispatched == s.nrDispatched && r.c == s.c && Found(r)
            && Dir(r, !rq.sync) == Dir(s, !rq.sync) && |Dir(r, rq.sync).tree| == |Dir(s, rq.sync).tree| + 1
            && (forall y :: y in Dir(r, rq.sync).tree <==> y in Dir(s, rq.sync).tree || y == x)
            && Dir(r, rq.sync).fifo == Dir(s, rq.sync).fifo + [x]
  {
    hide Linked, Enqueue, Choose, Find, Insert;
    AddFound(s, x, rq, false);
    PlainEnqueue(s, x, rq);
    TreeSorted(s, rq.sync);
    InsertLength(s.t[x := rq], Dir(s, rq.sync).tree, x);
  }

  lemma {:induction false} InsertLength(t: Table, l: seq<nat>, x: nat)
    requires Known(t, l) && x in t
    ensures |Insert(t, l, x)| == |l| + 1
  {
    if l != [] && t[x].sector >= t[l[0]].sector {
      InsertLength(t, l[1..], x);
    }
  }

  function Start(): St {
    var side := Side([], [], None, 0);
    St(map[], side, side, Ctl(false, false, false, 2, 0, false, Off, 0, false, false), 0, {}, {})
  }

  // -------------------------------------------------------------- next_rq forgotten

  /**
   Two synchronous requests are queued, at sectors 100 and 92, and a second bio for sectors 92 to 99 is
   merged in front of the first.  The request at 92 goes out, next_rq is looked for while the other one is
   out of the tree, and forced dispatch then leaves that one behind.
   */
  lemma FrontMergeForgets() returns (s: St, steps: seq<Step>, r: St)
    ensures Fresh(s) && Linked(s) && Runs(Any, s, steps, r) && Linked(r)
    ensures steps == [AddStep(1, Rq(100, 8, true, 1, 0, false), false), AddStep(2, Rq(92, 8, true, 1, 0, false), false),
                      FrontMergeStep(1, 8)]
    ensures 1 in r.sync.tree && r.sync.next.None? && Forced(r).sync.fifo != []
  {
    hide Linked, Apply, Found, FrontMerge, FrontAlias, Forced;
    s := Start();
    var rq1, rq2 := Rq(100, 8, true, 1, 0, false), Rq(92, 8, true, 1, 0, false);
    var a1, a2, m := AddStep(1, rq1, false), AddStep(2, rq2, false), FrontMergeStep(1, 8);
    FreshIsFine(s);
    assert Runs(Any, s, [], s);
    Extend(s, [], s, a1);
    var s1 := Apply(s, a1);
    Added(s, 1, rq1);
    Extend(s, [a1], s1, a2);
    var s2 := Apply(s1, a2);
    Added(s1, 2, rq2);
    Extend(s, [a1, a2], s2, m);
    r := Apply(s2, m);
    steps := [a1, a2, m];
    assert [] + [a1] == [a1] && [a1] + [a2] == [a1, a2] && [a1, a2] + [m] == steps;
    Forgets(s2);
  }

  /** PlainAdd as a step. */
  lemma Added(s: St, x: nat, rq: Rq)
    requires Linked(s) && Found(s) && x !in s.t && s.c.antic == Off
    requires forall y | y in Dir(s, rq.sync).tree :: y in s.t && s.t[y].sector != rq.sector
    ensures var r := Apply(s, AddStep(x, rq, false));
            && r.t == s.t[x := rq] && r.out == s.out && r.nrDispatched == s.nrDispatched && r.c == s.c && Found(r)
            && Dir(r, !rq.sync) == Dir(s, !rq.sync) && |Dir(r, rq.sync).tree| == |Dir(s, rq.sync).tree| + 1
            && (forall y :: y in Dir(r, rq.sync).tree <==> y in Dir(s, rq.sync).tree || y == x)
            && Dir(r, rq.sync).fifo == Dir(s, rq.sync).fifo + [x]
  {
    hide Linked, Add, Found;
    PlainAdd(s, x, rq);
  }

  lemma Forgets(s: St)
    requires Linked(s) && Found(s) && Queued(s, 1) && Queued(s, 2) && |s.sync.tree| == 2
    requires s.t[1].sync && s.t[2].sync && s.t[1].sector == 100 && s.t[2].sector == 92
    ensures var r := Apply(s, FrontMergeStep(1, 8));
            Linked(r) && 1 in r.sync.tree && r.sync.next.None? && Forced(r).sync.fifo != []
  {
    hide Linked, FrontMerge, FrontAlias, Forced;
    FrontAliasIs(s, 1, 8);
    FrontMergeLinked(s, 1, 8);
    StepFoundIff(s, FrontMergeStep(1, 8));
    var r := FrontMerge(s, 1, 8);
    ForcedLinked(r);
    ForcedDrains(r);
    TreeEmpty(Forced(r), true);
  }

  // ---------------------------------------------------------------- directions mixed

  const CALM := Env(false, false, false, false, false)

  /** With only writes queued and nothing outstanding, the cached one is dispatched. */
  lemma FirstWrite(s: St)
    requires Linked(s) && s.sync.fifo == [] && s.async.next.Some? && s.async.fifo != [] && s.out == {}
    requires s.c.antic == Off && !s.c.changed && !s.c.dir
    ensures var r := Dispatch(s, CALM).0;
            r.out == {s.async.next.value} && r.t == s.t && r.sync == s.sync && r.c.antic == Off
  {
    hide SideOk, Move;
    var x := s.async.next.value;
    var s1 := s.(c := Idle(s.c, false, true));
    CtlLinked(s, s1.c);
    NextQueued(s1, false);
    MoveFields(s1, x);
    MovedCtl(s1, x);
  }

  lemma Wrote(s: St, x: nat)
    requires Linked(s) && s.sync.fifo == [] && s.async.fifo != [] && s.out == {}
    requires x in s.async.tree && forall y | y in s.async.tree :: y == x
    requires s.c.antic == Off && !s.c.changed && !s.c.dir && Found(s)
    ensures var r := Apply(s, DispatchStep(CALM));
            r.out == {x} && r.t == s.t && r.sync == s.sync && r.c.antic == Off && Found(r)
  {
    hide Linked, Dispatch;
    NextIsIn(s, false);
    FirstWrite(s);
    StepFoundIff(s, DispatchStep(CALM));
  }

  /** A write is dispatched; then two reads for one sector come, and the first of them joins it. */
  lemma AliasMixesRun() returns (s: St, steps: seq<Step>, r: St)
    ensures Fresh(s) && Linked(s) && Runs(Any, s, steps, r)
    ensures |steps| == 4 && steps[3].AddStep? && !OneDirection(r)
  {
    hide Linked, Apply, Found, OneDirection;
    s := Start();
    var w, q := Rq(0, 8, false, 1, 0, false), Rq(100, 8, true, 1, 0, false);
    var a1, d, a2, a3 := AddStep(1, w, false), DispatchStep(CALM), AddStep(2, q, false), AddStep(3, q, false);
    FreshIsFine(s);
    assert Runs(Any, s, [], s);
    Extend(s, [], s, a1);
    var s1 := Apply(s, a1);
    Added(s, 1, w);
    Extend(s, [a1], s1, d);
    var s2 := Apply(s1, d);
    Wrote(s1, 1);
    Extend(s, [a1, d], s2, a2);
    var s3 := Apply(s2, a2);
    Added(s2, 2, q);
    Extend(s, [a1, d, a2], s3, a3);
    r := Apply(s3, a3);
    steps := [a1, d, a2, a3];
    assert [] + [a1] == [a1] && [a1] + [d] == [a1, d] && [a1, d] + [a2] == [a1, d, a2] && [a1, d, a2] + [a3] == steps;
    Joins(s3, q);
  }

  lemma Joins(s: St, rq: Rq)
    requires Linked(s) && 1 in s.out && 1 in s.t && !s.t[1].sync && 3 !in s.t && rq.sync
    requires 2 in s.sync.tree && 2 in s.t && s.t[2].sync && s.t[2].sector == rq.sector
    ensures !OneDirection(Apply(s, AddStep(3, rq, false)))
  {
    hide Linked, Apply, AliasOf;
    var step := AddStep(3, rq, false);
    if AliasOf(s, step).None? {
      NoAlias(s, 3, rq, false);
      assert false;
    }
    AliasMixes(s, step);
    AliasSync(s, step);
  }

  lemma AliasSync(s: St, step: Step)
    requires Linked(s) && Enabled(s, step) && step.AddStep? && AliasOf(s, step).Some?
    ensures AliasOf(s, step).value in s.t && s.t[AliasOf(s, step).value].sync == step.rq.sync
  {
    hide Linked, AliasOf;
    AddAliased(s, step.x, step.rq, step.stats, AliasOf(s, step).value);
  }

  /** A write and a read are queued, and dispatch is forced. */
  lemma ForcedMixesRun() returns (s: St, steps: seq<Step>, r: St)
    ensures Fresh(s) && Linked(s) && Runs(Any, s, steps, r)
    ensures |steps| == 3 && steps[2] == ForcedStep && !OneDirection(r)
  {
    hide Linked, Apply, Found, OneDirection;
    s := Start();
    var w, q := Rq(0, 8, false, 1, 0, false), Rq(100, 8, true, 1, 0, false);
    var a1, a2, f := AddStep(1, w, false), AddStep(2, q, false), ForcedStep;
    FreshIsFine(s);
    assert Runs(Any, s, [], s);
    Extend(s, [], s, a1);
    var s1 := Apply(s, a1);
    Added(s, 1, w);
    Extend(s, [a1], s1, a2);
    var s2 := Apply(s1, a2);
    Added(s1, 2, q);
    Extend(s, [a1, a2], s2, f);
    r := Apply(s2, f);
    steps := [a1, a2, f];
    assert [] + [a1] == [a1] && [a1] + [a2] == [a1, a2] && [a1, a2] + [f] == steps;
    BothGo(s2);
  }

  lemma BothGo(s: St)
    requires Linked(s) && Found(s) && s.sync.tree != [] && s.async.tree != []
    ensures !OneDirection(Apply(s, ForcedStep))
  {
    hide Linked, Forced, OneDirection;
    ForcedMixes(s);
  }
}
