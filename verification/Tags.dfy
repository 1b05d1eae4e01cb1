/** The tag allocator of block/blk-tag.c, for a tag map that one queue uses. */
module Tags {
  import opened SortList

  /**
   struct blk_queue_tag and what belongs to it: tag_index, tag_map, max_depth (real_max_depth is the
   length of both arrays), rq->tag of the tagged requests, tag_busy_list and queue_head.  starts is
   history: the requests in the order they were given their tags.
   */
  datatype St = St(
    index: seq<Option<nat>>, bits: seq<bool>, maxDepth: nat,
    tag: map<nat, nat>, sync: map<nat, bool>, busy: seq<nat>, queue: seq<nat>, starts: seq<nat>)

  // ---------------------------------------------------------------------- operations

  /** find_next_zero_bit(tag_map, depth, offset): the first free tag, depth if there is none. */
  function NextZero(bits: seq<bool>, depth: nat, offset: nat): (t: nat)
    requires depth <= |bits|
    ensures offset <= t && (t < depth ==> !bits[t]) && forall i | offset <= i < t && i < depth :: bits[i]
    decreases depth - offset
  {
    if offset >= depth || !bits[offset] then offset else NextZero(bits, depth, offset + 1)
  }

  /** A quarter of the tags is kept for synchronous requests. */
  function Offset(maxDepth: nat, sync: bool): nat {
    if sync then 0 else maxDepth / 4
  }

  /** blk_queue_start_tag; true: a tag was assigned. */
  function Start(s: St, x: nat, sync: bool): (St, bool)
    requires s.maxDepth <= |s.bits| == |s.index|
  {
    var t := NextZero(s.bits, s.maxDepth, Offset(s.maxDepth, sync));
    if t >= s.maxDepth then (s, false)
    else (s.(bits := s.bits[t := true], index := s.index[t := Some(x)], tag := s.tag[x := t],
             sync := s.sync[x := sync], busy := [x] + s.busy, queue := Without(s.queue, x), starts := s.starts + [x]), true)
  }

  /** blk_queue_end_tag. */
  function EndTag(s: St, x: nat): St
    requires |s.bits| == |s.index| && x in s.tag
  {
    var t := s.tag[x];
    if t >= |s.bits| then s
    else s.(bits := s.bits[t := false], index := s.index[t := None], tag := s.tag - {x}, busy := Without(s.busy, x))
  }

  /** The depth init_tag_map settles on. */
  function NewDepth(depth: nat, nrRequests: nat): nat {
    if depth > nrRequests * 2 then nrRequests * 2 else depth
  }

  const BITS_PER_LONG := 64

  /** The words of a bitmap of that many tags. */
  function Words(depth: nat): nat {
    (depth + BITS_PER_LONG - 1) / BITS_PER_LONG
  }

  /** The cells of an array of that length. */
  function Cells(length: nat): (r: set<nat>)
    ensures forall i: nat :: i in r <==> i < length
  {
    if length == 0 then {} else Cells(length - 1) + {length - 1}
  }

  /** The cells both memcpy calls write, all those of the old arrays, are cells of arrays made for depth n. */
  predicate CopiesInBounds(was: nat, n: nat) {
    Cells(was) <= Cells(n) && Cells(Words(was)) <= Cells(Words(n))
  }

  predicate CanResize(s: St, depth: nat, nrRequests: nat) {
    depth <= |s.bits| || CopiesInBounds(|s.bits|, NewDepth(depth, nrRequests))
  }

  lemma CopiesInBoundsIff(was: nat, n: nat)
    ensures CopiesInBounds(was, n) <==> was <= n
  {
    if was > n {
      assert was - 1 in Cells(was) && was - 1 !in Cells(n);
    }
  }

  function Falses(n: nat): (r: seq<bool>)
    ensures |r| == n && forall i | 0 <= i < n :: !r[i]
  {
    seq(n, _ => false)
  }

  function Nones(n: nat): (r: seq<Option<nat>>)
    ensures |r| == n && forall i | 0 <= i < n :: r[i] == None
  {
    seq(n, _ => None)
  }

  /** blk_queue_resize_tags. */
  function Resize(s: St, depth: nat, nrRequests: nat): St
    requires |s.bits| == |s.index| && CanResize(s, depth, nrRequests)
  {
    if depth <= |s.bits| then s.(maxDepth := depth)
    else
      var n := NewDepth(depth, nrRequests);
      CopiesInBoundsIff(|s.bits|, n);
      s.(maxDepth := n, bits := s.bits + Falses(n - |s.bits|), index := s.index + Nones(n - |s.index|))
  }

  /** blk_requeue_request with no ordered sequence running: the tag is given back, the request goes to the front. */
  function Requeue(s: St, x: nat): St
    requires |s.bits| == |s.index| && x in s.tag
  {
    var r := EndTag(s, x);
    r.(queue := [x] + r.queue)
  }

  // ----------------------------------------------------------------------- invariant

  /** A bit is set iff tag_index holds a request there, and that is the one request carrying the tag. */
  ghost predicate Exact(s: St) {
    && |s.bits| == |s.index| && s.maxDepth <= |s.bits|
    && (forall t | 0 <= t < |s.bits| :: s.bits[t] <==> s.index[t].Some?)
    && (forall t | 0 <= t < |s.bits| && s.index[t].Some? :: s.index[t].value in s.tag && s.tag[s.index[t].value] == t)
    && (forall x | x in s.tag :: s.tag[x] < |s.index| && s.index[s.tag[x]] == Some(x))
    && Distinct(s.busy) && (forall x :: x in s.busy <==> x in s.tag)
    && (forall x | x in s.tag :: x in s.sync)
  }

  /** No two requests carry one tag. */
  lemma TagsAreUnique(s: St, x: nat, y: nat)
    requires Exact(s) && x in s.tag && y in s.tag && s.tag[x] == s.tag[y]
    ensures x == y
  {
  }

  /**
   A request is given the lowest free tag, an asynchronous one the lowest not in the first quarter, and is refused
   one only if there is none.
   */
  lemma StartExact(s: St, x: nat, sync: bool)
    requires Exact(s) && x !in s.tag
    ensures var (r, ok) := Start(s, x, sync);
            var offset := if sync then 0 else s.maxDepth / 4;
            && Exact(r)
            && (!ok <==> forall t | offset <= t < s.maxDepth :: s.bits[t])
            && (!ok ==> r == s)
            && (ok ==>
                  && x in r.tag && offset <= r.tag[x] < s.maxDepth && !s.bits[r.tag[x]]
                  && (forall t | offset <= t < r.tag[x] :: s.bits[t])
                  && r.tag == s.tag[x := r.tag[x]] && r.busy == [x] + s.busy && x !in r.queue)
  {
    hide Without;
  }

  lemma EndExact(s: St, x: nat)
    requires Exact(s) && x in s.tag
    ensures Exact(EndTag(s, x)) && !EndTag(s, x).bits[s.tag[x]] && x !in EndTag(s, x).tag
  {
    hide Without, Distinct;
    WithoutDistinct(s.busy, x);
  }

  lemma ResizeExact(s: St, depth: nat, nrRequests: nat)
    requires Exact(s) && CanResize(s, depth, nrRequests)
    ensures Exact(Resize(s, depth, nrRequests)) && Resize(s, depth, nrRequests).tag == s.tag
    ensures var r := Resize(s, depth, nrRequests);
            && r.maxDepth == (if depth > |s.bits| && depth > 2 * nrRequests then 2 * nrRequests else depth)
            && |r.bits| == if depth > |s.bits| then r.maxDepth else |s.bits|
  {
    CopiesInBoundsIff(|s.bits|, NewDepth(depth, nrRequests));
  }

  /** Growing copies within the new arrays exactly if 2 * nr_requests covers the old depth. */
  lemma GrowInBoundsIff(s: St, depth: nat, nrRequests: nat)
    requires depth > |s.bits|
    ensures CopiesInBounds(|s.bits|, NewDepth(depth, nrRequests)) <==> 2 * nrRequests >= |s.bits|
  {
    CopiesInBoundsIff(|s.bits|, NewDepth(depth, nrRequests));
  }

  /** init_tag_map for a queue. */
  function Init(depth: nat, nrRequests: nat, queue: seq<nat>): St {
    var n := NewDepth(depth, nrRequests);
    St(Nones(n), Falses(n), n, map[], map[], [], queue, [])
  }

  lemma InitExact(depth: nat, nrRequests: nat, queue: seq<nat>)
    ensures Exact(Init(depth, nrRequests, queue)) && StartOrder(Init(depth, nrRequests, queue))
  {
  }

  // ---------------------------------------------------------------------------- runs

  datatype Step =
    | StartStep(x: nat, sync: bool)
    | EndStep(x: nat)
    | RequeueStep(x: nat)
    | ResizeStep(depth: nat, nrRequests: nat)
    | InvalidateStep

  ghost predicate Enabled(s: St, step: Step) {
    match step
    case StartStep(x, _) => x !in s.tag
    case EndStep(x) => x in s.tag
    case RequeueStep(x) => x in s.tag
    case ResizeStep(depth, nrRequests) => CanResize(s, depth, nrRequests)
    case InvalidateStep => true
  }

  ghost function Apply(s: St, step: Step): St
    requires Exact(s) && Enabled(s, step)
  {
    match step
    case StartStep(x, sync) => Start(s, x, sync).0
    case EndStep(x) => EndTag(s, x)
    case RequeueStep(x) => Requeue(s, x)
    case ResizeStep(depth, nrRequests) => Resize(s, depth, nrRequests)
    case InvalidateStep => Invalidate(s)
  }

  lemma StepExact(s: St, step: Step)
    requires Exact(s) && Enabled(s, step)
    ensures Exact(Apply(s, step))
  {
    hide Start, EndTag, Resize, Exact, Invalidate;
    match step
    case StartStep(x, sync) => StartExact(s, x, sync);
    case EndStep(x) => EndExact(s, x);
    case RequeueStep(x) => RequeueExact(s, x);
    case ResizeStep(depth, nrRequests) => ResizeExact(s, depth, nrRequests);
    case InvalidateStep => InvalidateRestores(s);
  }

  lemma RequeueExact(s: St, x: nat)
    requires Exact(s) && x in s.tag
    ensures Exact(Requeue(s, x))
  {
    EndExact(s, x);
    hide EndTag;
    QueueFree(EndTag(s, x), [x] + EndTag(s, x).queue);
  }

  ghost predicate Runs(s: St, steps: seq<Step>, r: St)
    requires Exact(s)
    decreases |steps|
  {
    if steps == [] then r == s
    else Enabled(s, steps[0]) && (StepExact(s, steps[0]); Runs(Apply(s, steps[0]), steps[1..], r))
  }

  /** States a fresh map can get to. */
  ghost predicate Reached(depth: nat, nrRequests: nat, queue: seq<nat>, steps: seq<Step>, r: St) {
    InitExact(depth, nrRequests, queue);
    Runs(Init(depth, nrRequests, queue), steps, r)
  }

  lemma {:induction false} RunKeepsExact(s: St, steps: seq<Step>, r: St)
    requires Exact(s) && Runs(s, steps, r)
    ensures Exact(r)
    decreases |steps|
  {
    if steps != [] {
      hide Exact, Apply, Enabled;
      StepExact(s, steps[0]);
      RunKeepsExact(Apply(s, steps[0]), steps[1..], r);
    }
  }

  /** Over every run from a fresh map the map stays exact, and no two requests ever carry one tag. */
  lemma RunExact(depth: nat, nrRequests: nat, queue: seq<nat>, steps: seq<Step>, r: St)
    requires Reached(depth, nrRequests, queue, steps, r)
    ensures Exact(r)
    ensures forall x, y | x in r.tag && y in r.tag && r.tag[x] == r.tag[y] :: x == y
  {
    hide Runs;
    InitExact(depth, nrRequests, queue);
    RunKeepsExact(Init(depth, nrRequests, queue), steps, r);
    forall x, y | x in r.tag && y in r.tag && r.tag[x] == r.tag[y] ensures x == y {
      TagsAreUnique(r, x, y);
    }
  }

  /** A queue of 128 requests gets 128 tags, nr_requests is lowered to 4, and the map is asked to grow. */
  lemma GrowOverruns() returns (steps: seq<Step>, r: St)
    ensures Reached(128, 128, [0], steps, r) && Exact(r) && r.tag == map[0 := 0]
    ensures NewDepth(200, 4) == 8 && 8 in Cells(|r.index|) && 8 !in Cells(NewDepth(200, 4))
    ensures 1 in Cells(Words(|r.bits|)) && 1 !in Cells(Words(NewDepth(200, 4)))
    ensures !Enabled(r, ResizeStep(200, 4))
  {
    hide Cells, Falses, Nones, Exact, NextZero, Without;
    steps, r := [StartStep(0, true)], Start(Init(128, 128, [0]), 0, true).0;
    InitExact(128, 128, [0]);
    StartExact(Init(128, 128, [0]), 0, true);
    assert !Init(128, 128, [0]).bits[0];
    OneStep(Init(128, 128, [0]), steps[0]);
    GrowInBoundsIff(r, 200, 4);
  }

  lemma OneStep(s: St, step: Step)
    requires Exact(s) && Enabled(s, step)
    ensures Runs(s, [step], Apply(s, step))
  {
    hide Exact, Apply;
    StepExact(s, step);
    assert [step][1..] == [];
    assert Runs(Apply(s, step), [], Apply(s, step));
  }

  /** A tag above a reduced depth is still released: its bit is clear afterwards, whatever the depth is now. */
  lemma ReleasedAboveDepth(s: St, depth: nat, nrRequests: nat, x: nat)
    requires Exact(s) && depth <= |s.bits| && x in s.tag
    ensures var r := EndTag(Resize(s, depth, nrRequests), x);
            Exact(r) && r.maxDepth == depth && !r.bits[s.tag[x]] && r.index[s.tag[x]].None? && x !in r.tag
  {
    ResizeExact(s, depth, nrRequests);
    EndExact(Resize(s, depth, nrRequests), x);
  }

  ghost predicate Reserved(s: St) {
    forall x | x in s.tag && x in s.sync && !s.sync[x] :: s.tag[x] >= s.maxDepth / 4
  }

  /** At a fixed depth asynchronous requests never hold a tag of the reserved quarter. */
  lemma {:induction false} RunReserved(s: St, steps: seq<Step>, r: St)
    requires Exact(s) && Reserved(s) && Runs(s, steps, r) && forall i | 0 <= i < |steps| :: !steps[i].ResizeStep?
    ensures Reserved(r) && r.maxDepth == s.maxDepth
    decreases |steps|
  {
    if steps != [] {
      hide Exact, Apply, Reserved;
      StepExact(s, steps[0]);
      StepReserved(s, steps[0]);
      RunReserved(Apply(s, steps[0]), steps[1..], r);
    }
  }

  lemma StepReserved(s: St, step: Step)
    requires Exact(s) && Enabled(s, step) && Reserved(s) && !step.ResizeStep?
    ensures Reserved(Apply(s, step)) && Apply(s, step).maxDepth == s.maxDepth
  {
    hide Exact, Without, Invalidate;
    if step.InvalidateStep? {
      InvalidateRestores(s);
    }
  }

  // -------------------------------------------------------------------- invalidation

  function Reverse(l: seq<nat>): seq<nat> {
    if l == [] then [] else Reverse(l[1..]) + [l[0]]
  }

  /** blk_queue_invalidate_tags: every request on the busy list, from its head on. */
  ghost function Invalidate(s: St): St
    requires Exact(s)
    decreases |s.busy|
  {
    if s.busy == [] then s
    else
      RequeueHead(s);
      Invalidate(Requeue(s, s.busy[0]))
  }

  lemma HeadTagged(s: St)
    requires Exact(s) && s.busy != []
    ensures s.busy[0] in s.tag && s.tag[s.busy[0]] < |s.bits| && Distinct(s.busy)
  {
    assert s.busy[0] in s.busy;
  }

  lemma QueueFree(s: St, queue: seq<nat>)
    requires Exact(s)
    ensures Exact(s.(queue := queue))
  {
  }

  lemma RequeueHead(s: St)
    requires Exact(s) && s.busy != []
    ensures s.busy[0] in s.tag
    ensures var r := Requeue(s, s.busy[0]);
            && Exact(r) && r.starts == s.starts && r.maxDepth == s.maxDepth
            && r.busy == s.busy[1..] && r.queue == [s.busy[0]] + s.queue && r.tag == s.tag - {s.busy[0]}
  {
    hide Exact, Without, Distinct;
    HeadTagged(s);
    LengthsAgree(s);
    EndExact(s, s.busy[0]);
    WithoutAt(s.busy, 0);
    assert s.busy[..0] + s.busy[1..] == s.busy[1..];
    QueueFree(EndTag(s, s.busy[0]), [s.busy[0]] + s.queue);
  }

  lemma NoneTagged(s: St)
    requires Exact(s) && s.busy == []
    ensures s.tag == map[]
  {
    forall x ensures x !in s.tag {}
  }

  /** All tags are free, and the busy list stands reversed at the queue front. */
  lemma {:induction false} InvalidateRestores(s: St)
    requires Exact(s)
    ensures var r := Invalidate(s);
            && Exact(r) && r.busy == [] && r.tag == map[] && r.queue == Reverse(s.busy) + s.queue
            && r.starts == s.starts && r.maxDepth == s.maxDepth
    decreases |s.busy|
  {
    hide Exact, Requeue;
    if s.busy == [] {
      NoneTagged(s);
      assert [] + s.queue == s.queue;
    } else {
      RequeueHead(s);
      LengthsAgree(s);
      InvalidateRestores(Requeue(s, s.busy[0]));
      assert Reverse(s.busy[1..]) + [s.busy[0]] + s.queue == Reverse(s.busy[1..]) + ([s.busy[0]] + s.queue);
    }
  }

  // ------------------------------------------------------------- the order of the starts

  /** When x was last started. */
  function LastStart(starts: seq<nat>, x: nat): int {
    if starts == [] then -1
    else if starts[|starts| - 1] == x then |starts| - 1 else LastStart(starts[..|starts| - 1], x)
  }

  lemma {:induction false} LastStartIs(starts: seq<nat>, x: nat)
    ensures var t := LastStart(starts, x);
            && -1 <= t < |starts| && (t >= 0 ==> starts[t] == x) && (t >= 0 <==> x in starts)
            && forall i | t < i < |starts| && i >= 0 :: starts[i] != x
  {
    if starts != [] {
      LastStartIs(starts[..|starts| - 1], x);
    }
  }

  lemma LastStartSnoc(starts: seq<nat>, x: nat, y: nat)
    ensures LastStart(starts + [x], y) == if x == y then |starts| else LastStart(starts, y)
  {
    assert (starts + [x])[..|starts|] == starts;
  }

  /** The busy list is newest first, and only started requests are on it. */
  ghost predicate StartOrder(s: St) {
    && (forall x | x in s.busy :: x in s.starts)
    && forall i, j | 0 <= i < j < |s.busy| :: LastStart(s.starts, s.busy[i]) > LastStart(s.starts, s.busy[j])
  }

  /** Each request was last started later than those before it. */
  ghost predicate InOrderOf(starts: seq<nat>, l: seq<nat>) {
    && (forall x | x in l :: x in starts)
    && forall i, j | 0 <= i < j < |l| :: LastStart(starts, l[i]) < LastStart(starts, l[j])
  }

  lemma StartInOrder(s: St, x: nat, sync: bool)
    requires Exact(s) && x !in s.tag && StartOrder(s)
    ensures StartOrder(Start(s, x, sync).0)
  {
    var (r, ok) := Start(s, x, sync);
    if ok {
      forall y ensures LastStart(r.starts, y) == if x == y then |s.starts| else LastStart(s.starts, y) {
        LastStartSnoc(s.starts, x, y);
      }
      forall j | 0 <= j < |s.busy| ensures LastStart(s.starts, s.busy[j]) < |s.starts| && s.busy[j] != x {
        assert s.busy[j] in s.busy;
        LastStartIs(s.starts, s.busy[j]);
      }
      hide LastStart, Exact, Without;
      assert r.busy == [x] + s.busy;
    }
  }

  lemma EndInOrder(s: St, x: nat)
    requires Exact(s) && x in s.tag && StartOrder(s)
    ensures StartOrder(EndTag(s, x))
  {
    hide LastStart, Without;
    assert x in s.busy;
    var k :| 0 <= k < |s.busy| && s.busy[k] == x;
    WithoutAt(s.busy, k);
  }

  lemma StepInOrder(s: St, step: Step)
    requires Exact(s) && Enabled(s, step) && StartOrder(s)
    ensures StartOrder(Apply(s, step))
  {
    hide LastStart, Exact, Start, EndTag, Invalidate;
    match step
    case StartStep(x, sync) => StartInOrder(s, x, sync);
    case EndStep(x) => EndInOrder(s, x);
    case RequeueStep(x) => EndInOrder(s, x);
    case ResizeStep(depth, nrRequests) =>
    case InvalidateStep => InvalidateRestores(s);
  }

  lemma {:induction false} RunInOrder(s: St, steps: seq<Step>, r: St)
    requires Exact(s) && StartOrder(s) && Runs(s, steps, r)
    ensures StartOrder(r)
    decreases |steps|
  {
    if steps != [] {
      hide Exact, Apply, Enabled, StartOrder;
      StepExact(s, steps[0]);
      StepInOrder(s, steps[0]);
      RunInOrder(Apply(s, steps[0]), steps[1..], r);
    }
  }

  lemma {:induction false} ReverseIs(l: seq<nat>)
    ensures |Reverse(l)| == |l| && forall i | 0 <= i < |l| :: Reverse(l)[i] == l[|l| - 1 - i]
  {
    if l != [] {
      ReverseIs(l[1..]);
    }
  }

  lemma ReverseMembers(l: seq<nat>, x: nat)
    ensures x in Reverse(l) <==> x in l
  {
    ReverseIs(l);
    hide Reverse;
    if x in l {
      var i :| 0 <= i < |l| && l[i] == x;
      assert Reverse(l)[|l| - 1 - i] == x;
    }
  }

  lemma ReverseInOrder(s: St)
    requires StartOrder(s)
    ensures InOrderOf(s.starts, Reverse(s.busy))
  {
    hide LastStart, Reverse;
    ReverseIs(s.busy);
    forall x | x in Reverse(s.busy) ensures x in s.starts {
      ReverseMembers(s.busy, x);
    }
  }

  /**
   After any run, invalidation frees all tags and puts exactly the tagged requests, each once and in the
   order in which they were given their tags, in front of what was queued.
   */
  lemma InvalidateInStartOrder(depth: nat, nrRequests: nat, queue: seq<nat>, steps: seq<Step>, s: St)
    requires Reached(depth, nrRequests, queue, steps, s)
    ensures Exact(s)
    ensures var r, n := Invalidate(s), |s.busy|;
            && Exact(r) && r.tag == map[] && |r.queue| == n + |s.queue| && r.queue[n..] == s.queue
            && (forall x :: x in s.tag <==> x in r.queue[..n]) && InOrderOf(s.starts, r.queue[..n])
  {
    hide Exact, StartOrder, Runs, Invalidate, Reverse, Init;
    RunExact(depth, nrRequests, queue, steps, s);
    InitExact(depth, nrRequests, queue);
    RunInOrder(Init(depth, nrRequests, queue), steps, s);
    InvalidateRestores(s);
    Restacked(s, Invalidate(s).queue);
  }

  lemma Restacked(s: St, q: seq<nat>)
    requires Exact(s) && StartOrder(s) && q == Reverse(s.busy) + s.queue
    ensures var n := |s.busy|;
            && |q| == n + |s.queue| && q[n..] == s.queue
            && (forall x :: x in s.tag <==> x in q[..n]) && InOrderOf(s.starts, q[..n])
  {
    hide StartOrder, InOrderOf, Reverse;
    ReverseIs(s.busy);
    assert q[..|s.busy|] == Reverse(s.busy);
    ReverseInOrder(s);
    forall x ensures x in s.tag <==> x in Reverse(s.busy) {
      ReverseMembers(s.busy, x);
    }
  }

  // -------------------------------------------------------------------------- in place

  class TagMap {
    var index: array<Option<nat>>
    var bits: array<bool>
    var maxDepth: nat
    var tag: map<nat, nat>
    var sync: map<nat, bool>
    var busy: seq<nat>
    var queue: seq<nat>
    ghost var starts: seq<nat>

    ghost function State(): St
      reads this, index, bits
    {
      St(index[..], bits[..], maxDepth, tag, sync, busy, queue, starts)
    }

    /** blk_queue_start_tag: the search for a free bit. */
    method StartTag(x: nat, isSync: bool) returns (ok: bool)
      requires Exact(State()) && x !in tag
      modifies this, index, bits
      ensures index == old(index) && bits == old(bits)
      ensures (State(), ok) == Start(old(State()), x, isSync)
    {
      var t := if isSync then 0 else maxDepth / 4;
      while t < maxDepth && bits[t]
        invariant NextZero(bits[..], maxDepth, t) == NextZero(bits[..], maxDepth, Offset(maxDepth, isSync))
        invariant unchanged(this, index, bits)
      {
        t := t + 1;
      }
      if t >= maxDepth {
        return false;
      }
      bits[t] := true;
      tag, sync := tag[x := t], sync[x := isSync];
      index[t] := Some(x);
      queue := Without(queue, x);
      busy := [x] + busy;
      starts := starts + [x];
      return true;
    }

    /** blk_queue_end_tag. */
    method EndTagOf(x: nat)
      requires index.Length == bits.Length && x in tag
      modifies this, index, bits
      ensures index == old(index) && bits == old(bits)
      ensures State() == EndTag(old(State()), x)
    {
      var t := tag[x];
      if t >= bits.Length {
        return;
      }
      busy := Without(busy, x);
      tag := tag - {x};
      index[t] := None;
      bits[t] := false;
    }

    /** A zeroed map of n bits that starts with the old ones. */
    static method GrownBits(was: array<bool>, n: nat) returns (r: array<bool>)
      requires was.Length <= n
      ensures fresh(r) && r[..] == was[..] + Falses(n - was.Length)
    {
      r := new bool[n](_ => false);
      for i := 0 to was.Length
        invariant forall j | 0 <= j < n :: r[j] == if j < i then was[j] else false
      {
        r[i] := was[i];
      }
    }

    static method GrownIndex(was: array<Option<nat>>, n: nat) returns (r: array<Option<nat>>)
      requires was.Length <= n
      ensures fresh(r) && r[..] == was[..] + Nones(n - was.Length)
    {
      r := new Option<nat>[n](_ => None);
      for i := 0 to was.Length
        invariant forall j | 0 <= j < n :: r[j] == if j < i then was[j] else None
      {
        r[i] := was[i];
      }
    }

    /** blk_queue_resize_tags; growing copies the old map into larger arrays. */
    method ResizeTags(depth: nat, nrRequests: nat)
      requires Exact(State()) && CanResize(State(), depth, nrRequests)
      modifies this
      ensures State() == Resize(old(State()), depth, nrRequests)
      ensures depth > old(bits.Length) ==> fresh(index) && fresh(bits)
      ensures depth <= old(bits.Length) ==> index == old(index) && bits == old(bits)
    {
      hide Exact, Falses, Nones;
      LengthsAgree(State());
      if depth <= bits.Length {
        maxDepth := depth;
        return;
      }
      var n := NewDepth(depth, nrRequests);
      CopiesInBoundsIff(bits.Length, n);
      var newIndex := GrownIndex(index, n);
      var newBits := GrownBits(bits, n);
      maxDepth, index, bits := n, newIndex, newBits;
    }

    /** blk_queue_invalidate_tags. */
    method InvalidateTags()
      requires Exact(State())
      modifies this, index, bits
      ensures State() == Invalidate(old(State()))
      ensures busy == [] && tag == map[] && queue == Reverse(old(busy)) + old(queue)
    {
      hide Exact, EndTag;
      InvalidateRestores(State());
      while busy != []
        invariant index == old(index) && bits == old(bits)
        invariant Exact(State()) && Invalidate(State()) == Invalidate(old(State()))
        decreases |busy|
      {
        RequeueHead(State());
        LengthsAgree(State());
        var x := busy[0];
        EndTagOf(x);
        queue := [x] + queue;
      }
    }
  }

  lemma LengthsAgree(s: St)
    requires Exact(s)
    ensures |s.index| == |s.bits|
  {
  }
}
