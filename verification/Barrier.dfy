/**
 The ordered (barrier) sequence of block/blk-barrier.c together with the request
 life cycle of block/elevator.c that it lives on: insertion, dispatch, peek,
 dequeue, completion and requeue.

 Requests are values; a request's place (in the I/O scheduler, on the dispatch
 queue, with the driver) and its REQ_STARTED and REQ_SOFTBARRIER flags are kept
 in the queue state.  The last fields of a request and of the state are history:
 no operation reads them.
 */
module Barrier {

  datatype Kind = Fs | Special | PreFlush | Bar | PostFlush

  /**
   barrier: REQ_HARDBARRIER.  empty: hard_nr_sectors is 0.  color: REQ_ORDERED_COLOR.
   epoch (history): how many barriers had been queued before this request.
   */
  datatype Rq = Rq(id: nat, kind: Kind, barrier: bool, empty: bool, color: bool, epoch: nat)

  /** QUEUE_ORDERED_*: byTag or by drain, and which proxies are to be issued. */
  datatype Mode = Mode(byTag: bool, preflush: bool, bar: bool, postflush: bool)

  datatype Option<T> = None | Some(value: T)

  /** How one barrier request ended: with which error, after which steps and reports. */
  datatype End = End(rq: Rq, error: int, steps: seq<nat>, reported: seq<int>)

  datatype History = History(bars: seq<Rq>, base: nat, steps: seq<nat>, reported: seq<int>, ended: seq<End>)

  /** The parts of struct request_queue that the protocol uses; ordseq is its set of bits. */
  datatype Q = Q(
    queue: seq<Rq>, sorter: set<Rq>, flying: set<Rq>, started: set<Rq>, soft: set<Rq>,
    ordseq: set<nat>, mode: Mode, orig: Rq, orderr: int, inFlight: int, ordcolor: bool,
    h: History)

  // QUEUE_ORDSEQ_*, as bit positions.
  const STARTED: nat := 1
  const DRAIN: nat := 2
  const PREFLUSH: nat := 3
  const BAR: nat := 4
  const POSTFLUSH: nat := 5
  const DONE: nat := 6

  const EOPNOTSUPP: int := -95

  // The three proxy requests embedded in the queue.
  const PreFlushRq: Rq := Rq(0, PreFlush, true, false, false, 0)
  const BarRq: Rq := Rq(0, Bar, true, false, false, 0)
  const PostFlushRq: Rq := Rq(0, PostFlush, true, false, false, 0)

  predicate IsProxy(r: Rq) {
    r == PreFlushRq || r == BarRq || r == PostFlushRq
  }

  /** A queued barrier request that is not a proxy. */
  predicate IsBar(r: Rq) {
    r.kind == Fs && r.barrier
  }

  /** blk_account_rq, for a request that has been started. */
  predicate Accounted(r: Rq) {
    r.kind == Fs || r.kind == Bar
  }

  // ------------------------------------------------------------ pure queries

  /** blk_ordered_cur_seq: the first bit not set, 0 when no sequence is running. */
  function CurSeq(ordseq: set<nat>): nat {
    if ordseq == {} then 0
    else if STARTED !in ordseq then STARTED
    else if DRAIN !in ordseq then DRAIN
    else if PREFLUSH !in ordseq then PREFLUSH
    else if BAR !in ordseq then BAR
    else if POSTFLUSH !in ordseq then POSTFLUSH
    else DONE
  }

  /** blk_ordered_req_seq, given the colour of the barrier whose sequence is running. */
  function ReqSeq(color: bool, r: Rq): nat {
    match r.kind
    case PreFlush => PREFLUSH
    case Bar => BAR
    case PostFlush => POSTFLUSH
    case Special => DRAIN
    case Fs => if r.color == color then DRAIN else DONE
  }

  function SetOf<T>(s: seq<T>): set<T> {
    set x | x in s
  }

  /** The first error among the reports, in the order they came in; 0 if there was none. */
  function FirstError(reported: seq<int>): int {
    if reported == [] then 0
    else if FirstError(reported[..|reported| - 1]) != 0 then FirstError(reported[..|reported| - 1])
    else reported[|reported| - 1]
  }

  // ---------------------------------------------------------------- list edits

  function Insert(s: seq<Rq>, p: nat, r: Rq): seq<Rq>
    requires p <= |s|
  {
    s[..p] + [r] + s[p..]
  }

  function Remove(s: seq<Rq>, i: nat): seq<Rq>
    requires i < |s|
  {
    s[..i] + s[i + 1..]
  }

  /** Where ELEVATOR_INSERT_REQUEUE stops: the first request not below level. */
  function RequeueAt(s: seq<Rq>, color: bool, level: nat): (p: nat)
    ensures p <= |s|
    ensures forall i | 0 <= i < p :: ReqSeq(color, s[i]) < level
    ensures p < |s| ==> level <= ReqSeq(color, s[p])
  {
    if s == [] || level <= ReqSeq(color, s[0]) then 0 else 1 + RequeueAt(s[1..], color, level)
  }

  // ------------------------------------------------------------- the operations

  /** blk_ordered_complete_seq. */
  function CompleteSeq(q: Q, done: seq<nat>, error: int): Q {
    var orderr := if error != 0 && q.orderr == 0 then error else q.orderr;
    var ordseq := q.ordseq + SetOf(done);
    var h := q.h.(steps := q.h.steps + done, reported := q.h.reported + [error]);
    if CurSeq(ordseq) != DONE then
      q.(orderr := orderr, ordseq := ordseq, h := h)
    else
      q.(orderr := orderr, ordseq := {},
         h := h.(ended := h.ended + [End(q.orig, orderr, h.steps, h.reported)]))
  }

  function Proxies(m: Mode): seq<Rq> {
    (if m.preflush then [PreFlushRq] else []) + (if m.bar then [BarRq] else []) + (if m.postflush then [PostFlushRq] else [])
  }

  /** The mode actually used for a barrier: an empty one has no BAR and no POSTFLUSH. */
  function ModeFor(r: Rq, next: Mode): Mode {
    if !r.empty then next
    else
      var m := next.(bar := false, postflush := false);
      if m.byTag && !m.preflush then m.(byTag := false) else m
  }

  /** The steps with nothing to wait for. */
  function Skipped(m: Mode, inFlight: int): seq<nat> {
    (if m.postflush then [] else [POSTFLUSH]) + (if m.bar then [] else [BAR]) +
    (if m.preflush then [] else [PREFLUSH]) + (if !m.byTag && inFlight != 0 then [] else [DRAIN])
  }

  /** What blk_do_ordered tells its caller: the request at the head is gone, or hand out this. */
  datatype Verdict = Gone | Return(rq: Option<Rq>)

  /** start_ordered up to the completion of the skipped steps. */
  function Stacked(q: Q, next: Mode): Q
    requires q.queue != []
  {
    var r := q.queue[0];
    var m := ModeFor(r, next);
    var p := Proxies(m);
    var ps := SetOf(p);
    q.(queue := p + q.queue[1..], started := q.started - ps, soft := q.soft + ps,
       ordseq := {STARTED}, mode := m, orig := r, orderr := 0,
       inFlight := if r in q.started then q.inFlight + 1 else q.inFlight,
       h := q.h.(base := q.h.base + 1, steps := [], reported := []))
  }

  /** start_ordered. */
  function StartOrdered(q: Q, next: Mode): (Q, Verdict)
    requires q.queue != []
  {
    var q1 := Stacked(q, next);
    var skip := Skipped(q1.mode, q1.inFlight);
    var q2 := CompleteSeq(q1, skip, 0);
    var p := Proxies(q1.mode);
    var first := if DRAIN !in skip || p == [] then None else Some(p[0]);
    (q2, if q2.ordseq == {} then Gone else Return(first))
  }

  /** blk_do_ordered on the request at the head; next is q->next_ordered, None for QUEUE_ORDERED_NONE. */
  function DoOrdered(q: Q, next: Option<Mode>): (Q, Verdict)
    requires q.queue != []
  {
    var r := q.queue[0];
    if q.ordseq == {} then
      if !IsBar(r) then (q, Return(Some(r)))
      else if next.Some? then StartOrdered(q, next.value)
      else
        (q.(queue := q.queue[1..],
            inFlight := if r in q.started then q.inFlight + 1 else q.inFlight,
            h := q.h.(base := q.h.base + 1, ended := q.h.ended + [End(r, EOPNOTSUPP, [], [EOPNOTSUPP])])), Gone)
    else if r.kind == Special then (q, Return(Some(r)))
    else if q.mode.byTag then (q, Return(if IsBar(r) then None else Some(r)))
    else (q, Return(if ReqSeq(q.orig.color, r) > CurSeq(q.ordseq) then None else Some(r)))
  }

  /** One round of elv_next_request: what comes back is marked as started. */
  function Peek(q: Q, next: Option<Mode>): (Q, Verdict)
    requires q.queue != []
  {
    var (q1, v) := DoOrdered(q, next);
    if v.Return? && v.rq.Some? then (q1.(started := q1.started + {v.rq.value}), v) else (q1, v)
  }

  /** elv_dequeue_request by the driver. */
  function Dequeue(q: Q, i: nat): Q
    requires i < |q.queue|
  {
    var r := q.queue[i];
    q.(queue := Remove(q.queue, i), flying := q.flying + {r},
       inFlight := if r in q.started && Accounted(r) then q.inFlight + 1 else q.inFlight)
  }

  /** The request leaves the driver and is forgotten. */
  function Released(q: Q, r: Rq): Q {
    q.(flying := q.flying - {r}, started := q.started - {r}, soft := q.soft - {r},
       inFlight := if r in q.started && Accounted(r) then q.inFlight - 1 else q.inFlight)
  }

  /** elv_completed_request: the last request before the barrier completes the drain. */
  function Completed(q: Q, r: Rq): Q {
    var q1 := Released(q, r);
    if q1.ordseq != {} && q1.inFlight == 0 && CurSeq(q1.ordseq) == DRAIN &&
       (q1.queue == [] || ReqSeq(q1.orig.color, q1.queue[0]) > DRAIN)
    then CompleteSeq(q1, [DRAIN], 0)
    else q1
  }

  /** The end of a request: for a proxy, its end_io callback. */
  function EndRequest(q: Q, r: Rq, error: int): Q {
    if IsProxy(r) then CompleteSeq(Completed(q, r), [ReqSeq(false, r)], error)
    else Completed(q, r)
  }

  /** ELEVATOR_INSERT_REQUEUE: the front, or the place its ordseq gives it. */
  function RequeuePos(q: Q, r: Rq): (p: nat)
    ensures p <= |q.queue|
  {
    if q.ordseq == {} then 0 else RequeueAt(q.queue, q.orig.color, ReqSeq(q.orig.color, r))
  }

  /** elv_requeue_request. */
  function Requeue(q: Q, r: Rq): Q {
    q.(queue := Insert(q.queue, RequeuePos(q, r), r), flying := q.flying - {r}, started := q.started - {r}, soft := q.soft + {r},
       inFlight := if r in q.started && Accounted(r) then q.inFlight - 1 else q.inFlight)
  }

  /** __elv_add_request: the request takes the current colour, a barrier toggles it. */
  function Coloured(q: Q, r: Rq): Rq {
    r.(color := q.ordcolor, epoch := |q.h.bars|)
  }

  function AddSorted(q: Q, r: Rq): Q {
    q.(sorter := q.sorter + {Coloured(q, r)})
  }

  function AddFront(q: Q, r: Rq): Q {
    var r' := Coloured(q, r);
    q.(queue := [r'] + q.queue, soft := q.soft + {r'})
  }

  function AddBack(q: Q, r: Rq): Q {
    var r' := Coloured(q, r);
    q.(queue := q.queue + [r'], soft := q.soft + {r'},
       ordcolor := if r.barrier then !q.ordcolor else q.ordcolor,
       h := if r.barrier then q.h.(bars := q.h.bars + [r']) else q.h)
  }

  /** The I/O scheduler hands r over and it is put on the dispatch queue at p. */
  function Dispatch(q: Q, r: Rq, p: nat): Q
    requires p <= |q.queue|
  {
    q.(queue := Insert(q.queue, p, r), sorter := q.sorter - {r})
  }

  /** Where elv_dispatch_sort and elv_dispatch_add_tail may put a request. */
  ghost predicate MayDispatchAt(q: Q, p: nat) {
    && p <= |q.queue|
    && forall i | p <= i < |q.queue| :: !q.queue[i].barrier && q.queue[i] !in q.soft && q.queue[i] !in q.started
  }

  // ------------------------------------------------------------- the invariant

  ghost predicate InSeq(q: Q) {
    q.ordseq != {}
  }

  /** What the order of two requests on the dispatch queue depends on. */
  datatype Context = Context(running: bool, base: nat, color: bool)

  ghost function Ctx(q: Q): Context {
    Context(InSeq(q), q.h.base, q.orig.color)
  }

  /** a may stand somewhere before b on the dispatch queue. */
  ghost predicate Before(c: Context, a: Rq, b: Rq) {
    && a != b
    && (IsBar(a) ==> !IsProxy(b) && (b.kind == Fs ==> a.epoch < b.epoch))
    && (IsBar(b) && a.kind == Fs ==> a.epoch <= b.epoch)
    && (c.running && a.kind != Special && b.kind != Special && (IsProxy(b) || b.epoch <= c.base)
        ==> ReqSeq(c.color, a) <= ReqSeq(c.color, b))
  }

  ghost predicate Ordered(c: Context, s: seq<Rq>) {
    forall i, j | 0 <= i < j < |s| :: Before(c, s[i], s[j])
  }

  predicate Odd(n: nat) {
    n % 2 == 1
  }

  /** Facts about any single request known to the queue. */
  ghost predicate Known(q: Q, r: Rq) {
    && (r.kind == Fs ==> r.epoch <= |q.h.bars| && r.color == Odd(r.epoch))
    && (r.kind !in {Fs, Special} ==> IsProxy(r))
    && (r.barrier ==> r.kind != Special)
    && (r in q.started && r.kind == Fs ==> r.epoch <= q.h.base)
  }

  ghost predicate Queued(q: Q, r: Rq) {
    && Known(q, r)
    && (IsBar(r) ==> q.h.base <= r.epoch < |q.h.bars| && q.h.bars[r.epoch] == r && r !in q.started)
    && (IsProxy(r) ==> r in q.soft)
    && (InSeq(q) && r.kind == Fs && r.epoch <= q.h.base && r.color == q.orig.color ==> r in q.soft)
  }

  ghost predicate Sorted(r: Rq, bars: nat) {
    r.kind == Fs && !r.barrier && r.epoch == bars && r.color == Odd(bars)
  }

  ghost predicate Lists(q: Q) {
    && Ordered(Ctx(q), q.queue)
    && (forall r | r in q.queue :: Queued(q, r))
    && (forall r | r in q.sorter :: Sorted(r, |q.h.bars|))
    && (forall r | r in q.flying :: Known(q, r) && !IsBar(r))
  }

  /** Each request is in one place, and the started ones are known. */
  ghost predicate Places(q: Q) {
    && (forall r | r in q.queue :: r !in q.flying && r !in q.sorter)
    && q.flying !! q.sorter
    && q.flying <= q.started
    && (forall r | r in q.started :: r in q.queue || r in q.flying)
  }

  /** Every barrier not yet started is on the dispatch queue. */
  ghost predicate Barriers(q: Q) {
    && q.h.base <= |q.h.bars|
    && (forall e: nat | e < |q.h.bars| :: IsBar(q.h.bars[e]) && q.h.bars[e].epoch == e && q.h.bars[e].color == Odd(e))
    && (forall e: nat | q.h.base <= e < |q.h.bars| :: q.h.bars[e] in q.queue)
    && q.ordcolor == Odd(|q.h.bars|)
    && (InSeq(q) ==> q.h.base >= 1 && q.orig == q.h.bars[q.h.base - 1])
  }

  ghost predicate Pending(q: Q, p: Rq) {
    p in q.queue || p in q.flying
  }

  /** A proxy is outstanding exactly while its step is; none is started before the drain is over. */
  ghost predicate Sequence(q: Q) {
    && (forall p | IsProxy(p) :: Pending(q, p) <==> InSeq(q) && ReqSeq(false, p) !in q.ordseq)
    && (InSeq(q) ==>
          && STARTED in q.ordseq && q.ordseq <= {STARTED, DRAIN, PREFLUSH, BAR, POSTFLUSH}
          && CurSeq(q.ordseq) != DONE
          && (q.mode.byTag ==> DRAIN in q.ordseq)
          && (forall p | IsProxy(p) && p in q.started :: DRAIN in q.ordseq)
          && (!q.mode.byTag ==> forall p | IsProxy(p) && p in q.started :: CurSeq(q.ordseq) == ReqSeq(false, p)))
  }

  ghost function FlyingAccounted(q: Q): set<Rq> {
    set r | r in q.flying && Accounted(r)
  }

  ghost predicate NoDup(s: seq<nat>) {
    forall i, j | 0 <= i < j < |s| :: s[i] != s[j]
  }

  /** A proper end: every step once, and the first error that was reported. */
  ghost predicate EndedWell(e: End) {
    || (e.steps == [] && e.error == EOPNOTSUPP)
    || (multiset(e.steps) == multiset{DRAIN, PREFLUSH, BAR, POSTFLUSH} && e.error == FirstError(e.reported))
  }

  ghost predicate Books(q: Q) {
    && q.inFlight == |FlyingAccounted(q)|
    && (InSeq(q) ==>
          && NoDup(q.h.steps) && SetOf(q.h.steps) == q.ordseq - {STARTED}
          && q.orderr == FirstError(q.h.reported))
    && |q.h.ended| == (if InSeq(q) then q.h.base - 1 else q.h.base)
    && (forall i | 0 <= i < |q.h.ended| :: EndedWell(q.h.ended[i]) && i < |q.h.bars| && q.h.ended[i].rq == q.h.bars[i])
  }

  ghost predicate Inv(q: Q) {
    Lists(q) && Places(q) && Barriers(q) && Sequence(q) && Books(q)
  }

  // ---------------------------------------------------------------- list lemmas

  lemma InsertIn(s: seq<Rq>, p: nat, r: Rq)
    requires p <= |s|
    ensures |Insert(s, p, r)| == |s| + 1 && r in Insert(s, p, r)
    ensures forall x :: x in Insert(s, p, r) <==> x == r || x in s
  {
    var t := Insert(s, p, r);
    assert t[p] == r;
    forall x | x in s ensures x in t {
      var i :| 0 <= i < |s| && s[i] == x;
      assert t[if i < p then i else i + 1] == x;
    }
  }

  lemma OrderedRemove(c: Context, s: seq<Rq>, i: nat)
    requires i < |s| && Ordered(c, s)
    ensures Ordered(c, Remove(s, i))
  {
    hide Before;
    var t := Remove(s, i);
    forall a, b | 0 <= a < b < |t| ensures Before(c, t[a], t[b]) {
      assert t[a] == s[if a < i then a else a + 1] && t[b] == s[if b < i then b else b + 1];
    }
  }

  lemma RemoveIn(c: Context, s: seq<Rq>, i: nat)
    requires i < |s| && Ordered(c, s)
    ensures forall x :: x in Remove(s, i) <==> x in s && x != s[i]
  {
    hide ReqSeq;
    var t := Remove(s, i);
    forall x | x in s && x != s[i] ensures x in t {
      var k :| 0 <= k < |s| && s[k] == x;
      assert t[if k < i then k else k - 1] == x;
    }
    forall x | x in t ensures x in s && x != s[i] {
      var k :| 0 <= k < |t| && t[k] == x;
      assert x == s[if k < i then k else k + 1];
      assert if k < i then Before(c, s[k], s[i]) else Before(c, s[i], s[k + 1]);
    }
  }

  lemma OrderedInsert(c: Context, s: seq<Rq>, p: nat, r: Rq)
    requires p <= |s| && Ordered(c, s)
    requires forall i | 0 <= i < p :: Before(c, s[i], r)
    requires forall i | p <= i < |s| :: Before(c, r, s[i])
    ensures Ordered(c, Insert(s, p, r))
  {
    hide Before;
    var t := Insert(s, p, r);
    forall a, b | 0 <= a < b < |t| ensures Before(c, t[a], t[b]) {
      assert a != p ==> t[a] == s[if a < p then a else a - 1];
      assert b != p ==> t[b] == s[if b < p then b else b - 1];
    }
  }

  /** Inserting a request that was nowhere, or in the scheduler, keeps the dispatch queue's facts. */
  lemma InsertLists(q: Q, q': Q, p: nat, r: Rq)
    requires Lists(q) && p <= |q.queue| && q'.queue == Insert(q.queue, p, r)
    requires Ctx(q') == Ctx(q) && q.orig == q'.orig
    requires q.h.bars <= q'.h.bars && q'.sorter <= q.sorter && q'.flying <= q.flying
    requires q'.sorter == {} || q'.h.bars == q.h.bars
    requires q'.started <= q.started && q.soft <= q'.soft
    requires forall i | 0 <= i < p :: Before(Ctx(q), q.queue[i], r)
    requires forall i | p <= i < |q.queue| :: Before(Ctx(q), r, q.queue[i])
    requires Queued(q', r)
    ensures Lists(q')
  {
    hide Before, ReqSeq, Insert;
    InsertIn(q.queue, p, r);
    OrderedInsert(Ctx(q), q.queue, p, r);
    forall y | y in q'.queue ensures Queued(q', y) {
      assert y != r ==> Queued(q, y);
    }
  }

  /** The sequence's facts depend on the proxies only. */
  lemma SequenceFrame(q: Q, q': Q)
    requires Sequence(q) && q'.ordseq == q.ordseq && q'.mode == q.mode
    requires forall p | IsProxy(p) :: (Pending(q, p) <==> Pending(q', p)) && (p in q'.started ==> p in q.started)
    ensures Sequence(q')
  {
    hide ReqSeq, CurSeq;
  }

  lemma BooksFrame(q: Q, q': Q)
    requires Books(q) && q'.ordseq == q.ordseq && q'.orderr == q.orderr
    requires q'.inFlight == |FlyingAccounted(q')|
    requires q.h.bars <= q'.h.bars && q'.h.base == q.h.base && q'.h.ended == q.h.ended
    requires q'.h.steps == q.h.steps && q'.h.reported == q.h.reported
    ensures Books(q')
  {
    hide FirstError, EndedWell, NoDup;
    forall i | 0 <= i < |q'.h.ended|
      ensures EndedWell(q'.h.ended[i]) && i < |q'.h.bars| && q'.h.ended[i].rq == q'.h.bars[i]
    {
      assert q.h.ended[i] == q'.h.ended[i];
      assert i < |q.h.bars|;
      assert q.h.bars[i] == q'.h.bars[i];
    }
  }

  lemma FlyingSame(q: Q, q': Q)
    requires q'.flying == q.flying && q'.inFlight == q.inFlight == |FlyingAccounted(q)|
    ensures q'.inFlight == |FlyingAccounted(q')|
  {
    assert FlyingAccounted(q') == FlyingAccounted(q);
  }

  lemma FlyingGains(q: Q, q': Q, r: Rq)
    requires r !in q.flying && q'.flying == q.flying + {r} && q.inFlight == |FlyingAccounted(q)|
    requires q'.inFlight == q.inFlight + if Accounted(r) then 1 else 0
    ensures q'.inFlight == |FlyingAccounted(q')|
  {
    assert FlyingAccounted(q') == FlyingAccounted(q) + (if Accounted(r) then {r} else {});
  }

  lemma FlyingLoses(q: Q, q': Q, r: Rq)
    requires r in q.flying && q'.flying == q.flying - {r} && q.inFlight == |FlyingAccounted(q)|
    requires q'.inFlight == q.inFlight - if Accounted(r) then 1 else 0
    ensures q'.inFlight == |FlyingAccounted(q')|
  {
    assert FlyingAccounted(q') == FlyingAccounted(q) - (if Accounted(r) then {r} else {});
  }

  // --------------------------------------------------------- adding requests

  /** A request structure nobody holds. */
  ghost predicate Fresh(q: Q, r: Rq) {
    r !in q.queue && r !in q.sorter && r !in q.flying && r !in q.soft && r !in q.started
  }

  lemma AddSortedKeeps(q: Q, r: Rq)
    requires Inv(q) && r.kind == Fs && !r.barrier && Fresh(q, Coloured(q, r))
    ensures Inv(AddSorted(q, r))
  {
    hide Before, ReqSeq, Ordered;
    var q' := AddSorted(q, r);
    assert FlyingAccounted(q') == FlyingAccounted(q);
    assert Ctx(q') == Ctx(q);
    forall x | x in q'.queue ensures Queued(q', x) {
      assert Queued(q, x);
    }
  }

  lemma AddFrontKeeps(q: Q, r: Rq)
    requires Inv(q) && r.kind == Special && !r.barrier && Fresh(q, Coloured(q, r))
    ensures Inv(AddFront(q, r))
  {
    hide Ordered, FirstError;
    var q', x := AddFront(q, r), Coloured(q, r);
    assert q'.queue == Insert(q.queue, 0, x);
    InsertIn(q.queue, 0, x);
    assert Lists(q') by {
      InsertLists(q, q', 0, x);
    }
    assert FlyingAccounted(q') == FlyingAccounted(q);
  }

  lemma AddBackLists(q: Q, r: Rq)
    requires Inv(q) && q.sorter == {} && r.kind in {Fs, Special} && (r.barrier ==> r.kind == Fs)
    requires Fresh(q, Coloured(q, r))
    ensures Lists(AddBack(q, r))
  {
    hide Sequence, Books, Ordered;
    var q', x := AddBack(q, r), Coloured(q, r);
    assert q'.queue == Insert(q.queue, |q.queue|, x);
    forall i | 0 <= i < |q.queue| ensures Before(Ctx(q), q.queue[i], x) {
      assert Queued(q, q.queue[i]);
    }
    InsertLists(q, q', |q.queue|, x);
  }

  lemma AddBackRest(q: Q, r: Rq)
    requires Inv(q) && q.sorter == {} && r.kind in {Fs, Special} && (r.barrier ==> r.kind == Fs)
    requires Fresh(q, Coloured(q, r))
    ensures var q' := AddBack(q, r); Places(q') && Barriers(q') && Sequence(q') && Books(q')
  {
    hide Lists, Sequence, Books;
    var q', x := AddBack(q, r), Coloured(q, r);
    assert q'.queue == Insert(q.queue, |q.queue|, x);
    InsertIn(q.queue, |q.queue|, x);
    SequenceFrame(q, q');
    assert Books(q') by {
      BooksCount(q);
      FlyingSame(q, q');
      BooksFrame(q, q');
    }
  }

  lemma AddBackKeeps(q: Q, r: Rq)
    requires Inv(q) && q.sorter == {} && r.kind in {Fs, Special} && (r.barrier ==> r.kind == Fs)
    requires Fresh(q, Coloured(q, r))
    ensures Inv(AddBack(q, r))
  {
    hide Lists, Places, Barriers, Sequence, Books, AddBack;
    AddBackLists(q, r);
    AddBackRest(q, r);
  }

  // ------------------------------------------------------- dispatch and dequeue

  lemma DispatchLists(q: Q, r: Rq, p: nat)
    requires Inv(q) && r in q.sorter && MayDispatchAt(q, p)
    ensures Lists(Dispatch(q, r, p))
  {
    hide Sequence, Books, Ordered;
    var q' := Dispatch(q, r, p);
    assert Sorted(r, |q.h.bars|);
    forall i | 0 <= i < p ensures Before(Ctx(q), q.queue[i], r) {
      assert Queued(q, q.queue[i]);
    }
    forall i | p <= i < |q.queue| ensures Before(Ctx(q), r, q.queue[i]) {
      assert Queued(q, q.queue[i]);
    }
    InsertLists(q, q', p, r);
  }

  lemma DispatchKeeps(q: Q, r: Rq, p: nat)
    requires Inv(q) && r in q.sorter && MayDispatchAt(q, p)
    ensures Inv(Dispatch(q, r, p))
  {
    hide Lists, Sequence, Books;
    var q' := Dispatch(q, r, p);
    assert Lists(q') && !IsProxy(r) by {
      DispatchLists(q, r, p);
      SorterKind(q, r);
    }
    InsertIn(q.queue, p, r);
    SequenceFrame(q, q');
    assert Books(q') by {
      BooksCount(q);
      FlyingSame(q, q');
      BooksFrame(q, q');
    }
  }

  lemma SorterKind(q: Q, r: Rq)
    requires Lists(q) && r in q.sorter
    ensures r.kind == Fs && !IsProxy(r)
  {
    hide Ordered;
    assert Sorted(r, |q.h.bars|);
  }

  lemma DequeueLists(q: Q, i: nat)
    requires Lists(q) && i < |q.queue| && q.queue[i] in q.started
    ensures Lists(Dequeue(q, i))
  {
    hide Before, ReqSeq, Remove;
    var q', r := Dequeue(q, i), q.queue[i];
    RemoveIn(Ctx(q), q.queue, i);
    OrderedRemove(Ctx(q), q.queue, i);
    assert Ctx(q') == Ctx(q);
    assert Queued(q, r);
    forall y | y in q'.queue ensures Queued(q', y) {
      assert Queued(q, y);
    }
  }

  lemma BooksCount(q: Q)
    requires Books(q)
    ensures q.inFlight == |FlyingAccounted(q)|
  {
  }

  lemma DequeueKeeps(q: Q, i: nat)
    requires Inv(q) && i < |q.queue| && q.queue[i] in q.started
    ensures Inv(Dequeue(q, i))
  {
    hide Lists, Sequence, Books, Remove, Accounted;
    var q', r := Dequeue(q, i), q.queue[i];
    DequeueLists(q, i);
    StartedKind(q, i);
    SequenceFrame(q, q');
    BooksCount(q);
    FlyingGains(q, q', r);
    BooksFrame(q, q');
  }

  lemma StartedKind(q: Q, i: nat)
    requires Lists(q) && i < |q.queue|
    ensures q.queue[i] in q.started ==> !IsBar(q.queue[i])
    ensures forall x :: x in Remove(q.queue, i) <==> x in q.queue && x != q.queue[i]
  {
    assert Queued(q, q.queue[i]);
    RemoveIn(Ctx(q), q.queue, i);
  }

  // ----------------------------------------------------------------------- peek

  /** Until its barrier is started, nothing beyond the first queued barrier is reachable. */
  lemma HeadEpoch(q: Q)
    requires Lists(q) && Barriers(q) && q.queue != [] && q.queue[0].kind == Fs
    ensures q.queue[0].epoch <= q.h.base
    ensures IsBar(q.queue[0]) ==> q.queue[0].epoch == q.h.base < |q.h.bars| && q.queue[0] == q.h.bars[q.h.base]
  {
    hide ReqSeq;
    var r := q.queue[0];
    assert Queued(q, r);
    if q.h.base < |q.h.bars| {
      var b := q.h.bars[q.h.base];
      var k :| 0 <= k < |q.queue| && q.queue[k] == b;
      if 0 < k {
        assert Before(Ctx(q), r, b);
      }
    }
  }

  /** What may be handed to the driver. */
  ghost predicate MayStart(q: Q, r: Rq) {
    && r in q.queue && !IsBar(r)
    && (r.kind == Fs ==> r.epoch <= q.h.base)
    && (IsProxy(r) && InSeq(q) ==> DRAIN in q.ordseq && (q.mode.byTag || CurSeq(q.ordseq) == ReqSeq(false, r)))
  }

  lemma StartingKeeps(q: Q, r: Rq)
    requires Inv(q) && MayStart(q, r)
    ensures Inv(q.(started := q.started + {r}))
  {
    hide Ordered, CurSeq, ReqSeq, FirstError, EndedWell, NoDup;
    var q' := q.(started := q.started + {r});
    assert Ctx(q') == Ctx(q);
    forall y | y in q'.queue ensures Queued(q', y) {
      assert Queued(q, y);
    }
    forall y | y in q'.flying ensures Known(q', y) && !IsBar(y) {
      assert Known(q, y);
    }
    assert FlyingAccounted(q') == FlyingAccounted(q);
  }

  /** While a sequence is running, or the head is no barrier, peeking only picks the head. */
  lemma PeekPicksHead(q: Q, next: Option<Mode>)
    requires Inv(q) && q.queue != [] && (InSeq(q) || !IsBar(q.queue[0]))
    ensures var (q', v) := DoOrdered(q, next);
            && q' == q && v.Return?
            && (v.rq.Some? ==> v.rq.value == q.queue[0] && MayStart(q, q.queue[0]))
  {
    hide Ordered, Books;
    var r := q.queue[0];
    assert Queued(q, r);
    if r.kind == Fs {
      HeadEpoch(q);
    }
    if IsProxy(r) {
      assert Pending(q, r);
    }
  }

  // ---------------------------------------------------------- starting a sequence

  /** What is left of the dispatch queue once the barrier at its head is taken away. */
  lemma BehindBarrier(q: Q, r: Rq)
    requires Lists(q) && Barriers(q) && q.queue != [] && IsBar(q.queue[0]) && r in q.queue[1..]
    ensures r in q.queue && r != q.queue[0] && Queued(q, r) && !IsProxy(r)
    ensures r.kind == Fs ==> q.h.base < r.epoch
  {
    hide ReqSeq;
    HeadEpoch(q);
    var i :| 0 <= i < |q.queue[1..]| && q.queue[1..][i] == r;
    assert Before(Ctx(q), q.queue[0], q.queue[i + 1]);
  }

  /** Behind a barrier everything up to the next barrier has the other colour. */
  lemma RestOrdered(q: Q, color: bool, running: bool)
    requires Lists(q) && Barriers(q) && q.queue != [] && IsBar(q.queue[0]) && color == q.queue[0].color
    ensures Ordered(Context(running, q.h.base + 1, color), q.queue[1..])
  {
    var c, rest := Context(running, q.h.base + 1, color), q.queue[1..];
    HeadEpoch(q);
    forall i, j | 0 <= i < j < |rest| ensures Before(c, rest[i], rest[j]) {
      assert Before(Ctx(q), q.queue[i + 1], q.queue[j + 1]);
      BehindBarrier(q, rest[i]);
      BehindBarrier(q, rest[j]);
    }
  }

  lemma OrderedAppend(c: Context, s: seq<Rq>, t: seq<Rq>)
    requires Ordered(c, s) && Ordered(c, t)
    requires forall i, j | 0 <= i < |s| && 0 <= j < |t| :: Before(c, s[i], t[j])
    ensures Ordered(c, s + t)
  {
    hide Before;
    forall i, j | 0 <= i < j < |s + t| ensures Before(c, (s + t)[i], (s + t)[j]) {
      if i >= |s| {
        assert Before(c, t[i - |s|], t[j - |s|]);
      }
    }
  }

  lemma ProxiesOrdered(m: Mode, c: Context)
    ensures Ordered(c, Proxies(m))
    ensures forall x | x in Proxies(m) :: IsProxy(x)
  {
  }

  lemma ProxiesFirst(q: Q, m: Mode)
    requires Lists(q) && Barriers(q) && q.queue != [] && IsBar(q.queue[0])
    ensures Ordered(Context(true, q.h.base + 1, q.queue[0].color), Proxies(m) + q.queue[1..])
  {
    hide Proxies;
    var c := Context(true, q.h.base + 1, q.queue[0].color);
    var p, rest := Proxies(m), q.queue[1..];
    HeadEpoch(q);
    RestOrdered(q, q.queue[0].color, true);
    ProxiesOrdered(m, c);
    forall i, j | 0 <= i < |p| && 0 <= j < |rest| ensures Before(c, p[i], rest[j]) {
      BehindBarrier(q, rest[j]);
      assert p[i] in p;
    }
    OrderedAppend(c, p, rest);
  }

  lemma StackedIn(q: Q, next: Mode)
    requires q.queue != []
    ensures var q1 := Stacked(q, next);
            forall x :: x in q1.queue <==> x in Proxies(q1.mode) || x in q.queue[1..]
  {
  }

  lemma StackedRest(q: Q, next: Mode, y: Rq)
    requires Inv(q) && !InSeq(q) && q.queue != [] && IsBar(q.queue[0]) && y in q.queue[1..]
    ensures Queued(Stacked(q, next), y) && y !in q.flying && y !in q.sorter
  {
    hide Before, ReqSeq, Books, Ordered, ModeFor, Proxies, Sequence;
    HeadEpoch(q);
    BehindBarrier(q, y);
  }

  lemma StackedProxy(q: Q, next: Mode, y: Rq)
    requires Inv(q) && !InSeq(q) && q.queue != [] && y in Proxies(Stacked(q, next).mode)
    ensures Queued(Stacked(q, next), y) && y !in q.flying && y !in q.sorter
  {
    hide Before, ReqSeq, Books, Ordered, ModeFor, Proxies, Barriers;
    ProxiesOrdered(Stacked(q, next).mode, Ctx(q));
    assert !Pending(q, y);
    ProxyNotSorted(q, y);
  }

  lemma StackedMember(q: Q, next: Mode, y: Rq)
    requires Inv(q) && !InSeq(q) && q.queue != [] && IsBar(q.queue[0]) && y in Stacked(q, next).queue
    ensures Queued(Stacked(q, next), y) && y !in q.flying && y !in q.sorter
  {
    hide Inv, Stacked, Queued, Proxies;
    StackedIn(q, next);
    if y in q.queue[1..] {
      StackedRest(q, next, y);
    } else {
      StackedProxy(q, next, y);
    }
  }

  lemma ProxyNotSorted(q: Q, p: Rq)
    requires Lists(q) && IsProxy(p)
    ensures p !in q.sorter
  {
    hide Ordered;
    assert !Sorted(p, |q.h.bars|);
  }

  lemma StackedLists(q: Q, next: Mode)
    requires Inv(q) && !InSeq(q) && q.queue != [] && IsBar(q.queue[0])
    ensures Lists(Stacked(q, next))
  {
    hide Before, ReqSeq, Books, Sequence, Queued, ModeFor, Proxies;
    var q1 := Stacked(q, next);
    ProxiesFirst(q, q1.mode);
    forall y | y in q1.queue ensures Queued(q1, y) {
      StackedMember(q, next, y);
    }
    forall y | y in q1.flying ensures Known(q1, y) && !IsBar(y) {
      assert Known(q, y);
    }
  }

  lemma StackedPlaces(q: Q, next: Mode)
    requires Inv(q) && !InSeq(q) && q.queue != [] && IsBar(q.queue[0])
    ensures Places(Stacked(q, next))
  {
    hide ReqSeq, Books, Sequence, ModeFor, Proxies, Ordered;
    var q1 := Stacked(q, next);
    StackedIn(q, next);
    assert Queued(q, q.queue[0]);
    forall y | y in q1.queue ensures y !in q1.flying && y !in q1.sorter {
      StackedMember(q, next, y);
    }
  }

  lemma StackedBarriers(q: Q, next: Mode)
    requires Inv(q) && !InSeq(q) && q.queue != [] && IsBar(q.queue[0])
    ensures Barriers(Stacked(q, next))
  {
    hide Ordered, Sequence, Books;
    HeadEpoch(q);
    StackedIn(q, next);
  }

  // --------------------------------------------------------- completing steps

  /** blk_ordered_complete_seq touches neither lists nor barriers. */
  lemma CompleteSeqFrame(q: Q, done: seq<nat>, error: int)
    requires Lists(q) && Places(q) && Barriers(q) && InSeq(q)
    ensures var q' := CompleteSeq(q, done, error); Lists(q') && Places(q') && Barriers(q')
  {
    hide ReqSeq, CurSeq, SetOf;
    var q' := CompleteSeq(q, done, error);
    forall i, j | 0 <= i < j < |q'.queue| ensures Before(Ctx(q'), q'.queue[i], q'.queue[j]) {
      assert Before(Ctx(q), q.queue[i], q.queue[j]);
    }
    forall y | y in q'.queue ensures Queued(q', y) {
      assert Queued(q, y);
    }
    forall y | y in q'.flying ensures Known(q', y) && !IsBar(y) {
      assert Known(q, y);
    }
  }

  lemma AllFourOnce(s: seq<nat>)
    requires NoDup(s) && SetOf(s) == {DRAIN, PREFLUSH, BAR, POSTFLUSH}
    ensures multiset(s) == multiset{DRAIN, PREFLUSH, BAR, POSTFLUSH}
  {
    forall x: nat ensures multiset(s)[x] == if x in SetOf(s) then 1 else 0 {
      CountOnce(s, x);
    }
  }

  lemma {:induction false} CountOnce(s: seq<nat>, x: nat)
    requires NoDup(s)
    ensures multiset(s)[x] == if x in s then 1 else 0
  {
    if s != [] {
      var t := s[..|s| - 1];
      CountOnce(t, x);
      assert s == t + [s[|s| - 1]];
    }
  }

  lemma FirstErrorGrows(reported: seq<int>, error: int)
    ensures FirstError(reported + [error]) == if FirstError(reported) != 0 then FirstError(reported) else error
  {
    assert (reported + [error])[..|reported|] == reported;
  }

  lemma StepsGrow(steps: seq<nat>, done: seq<nat>)
    requires NoDup(steps) && NoDup(done) && SetOf(steps) !! SetOf(done)
    ensures NoDup(steps + done) && SetOf(steps + done) == SetOf(steps) + SetOf(done)
  {
    var all := steps + done;
    forall i, j | 0 <= i < j < |all| ensures all[i] != all[j] {
      if i < |steps| <= j {
        assert all[i] in SetOf(steps) && all[j] in SetOf(done);
      }
    }
  }

  lemma CurSeqDone(s: set<nat>)
    requires STARTED in s && s <= {STARTED, DRAIN, PREFLUSH, BAR, POSTFLUSH}
    ensures CurSeq(s) == DONE <==> s - {STARTED} == {DRAIN, PREFLUSH, BAR, POSTFLUSH}
    ensures CurSeq(s) != DONE ==> CurSeq(s) !in s && DRAIN <= CurSeq(s) <= POSTFLUSH
  {
  }

  /** The books stay right when steps that are still open are completed (the BUG_ON does not fire). */
  lemma CompleteSeqBooks(q: Q, done: seq<nat>, error: int)
    requires Books(q) && Barriers(q) && InSeq(q) && STARTED in q.ordseq
    requires q.ordseq <= {STARTED, DRAIN, PREFLUSH, BAR, POSTFLUSH}
    requires NoDup(done) && SetOf(done) !! q.ordseq && SetOf(done) <= {DRAIN, PREFLUSH, BAR, POSTFLUSH}
    ensures Books(CompleteSeq(q, done, error))
  {
    hide NoDup, SetOf, CurSeq, Barriers, Books, CompleteSeq;
    if CurSeq(q.ordseq + SetOf(done)) == DONE {
      LastStepBooks(q, done, error);
    } else {
      OpenStepBooks(q, done, error);
    }
  }

  lemma OpenStepBooks(q: Q, done: seq<nat>, error: int)
    requires Books(q) && InSeq(q) && STARTED in q.ordseq && STARTED !in SetOf(done)
    requires NoDup(done) && SetOf(done) !! q.ordseq && CurSeq(q.ordseq + SetOf(done)) != DONE
    ensures Books(CompleteSeq(q, done, error))
  {
    hide FirstError, NoDup, SetOf, CurSeq, FlyingAccounted, EndedWell;
    var q' := CompleteSeq(q, done, error);
    FirstErrorGrows(q.h.reported, error);
    StepsGrow(q.h.steps, done);
    FlyingSame(q, q');
    assert STARTED in q'.ordseq;
    assert q'.h.steps == q.h.steps + done && q'.h.reported == q.h.reported + [error];
    assert SetOf(q'.h.steps) == q'.ordseq - {STARTED};
    assert q'.orderr == FirstError(q'.h.reported);
    assert q'.h.ended == q.h.ended && q'.h.bars == q.h.bars;
  }

  lemma LastStepBooks(q: Q, done: seq<nat>, error: int)
    requires Books(q) && Barriers(q) && InSeq(q) && STARTED in q.ordseq
    requires q.ordseq <= {STARTED, DRAIN, PREFLUSH, BAR, POSTFLUSH}
    requires NoDup(done) && SetOf(done) !! q.ordseq && SetOf(done) <= {DRAIN, PREFLUSH, BAR, POSTFLUSH}
    requires CurSeq(q.ordseq + SetOf(done)) == DONE
    ensures Books(CompleteSeq(q, done, error))
  {
    hide FirstError, NoDup, SetOf, CurSeq, FlyingAccounted, EndedWell, Barriers;
    var q' := CompleteSeq(q, done, error);
    var steps := q.h.steps + done;
    OrigIsLast(q);
    FirstErrorGrows(q.h.reported, error);
    StepsGrow(q.h.steps, done);
    FlyingSame(q, q');
    CurSeqDone(q.ordseq + SetOf(done));
    assert SetOf(steps) == q.ordseq + SetOf(done) - {STARTED};
    EndsWell(q.orig, q'.orderr, steps, q.h.reported + [error]);
    forall i | 0 <= i < |q'.h.ended|
      ensures EndedWell(q'.h.ended[i]) && i < |q'.h.bars| && q'.h.ended[i].rq == q'.h.bars[i]
    {
      assert i < |q.h.ended| ==> q'.h.ended[i] == q.h.ended[i];
      assert i == |q.h.ended| ==> q'.h.ended[i] == End(q.orig, q'.orderr, steps, q.h.reported + [error]);
    }
  }

  lemma OrigIsLast(q: Q)
    requires Barriers(q) && InSeq(q)
    ensures 1 <= q.h.base <= |q.h.bars| && q.orig == q.h.bars[q.h.base - 1]
  {
  }

  lemma EndsWell(rq: Rq, error: int, steps: seq<nat>, reported: seq<int>)
    requires NoDup(steps) && SetOf(steps) == {DRAIN, PREFLUSH, BAR, POSTFLUSH} && error == FirstError(reported)
    ensures EndedWell(End(rq, error, steps, reported))
  {
    AllFourOnce(steps);
  }

  lemma SkippedFacts(m: Mode, inFlight: int)
    ensures var s := Skipped(m, inFlight);
            && NoDup(s) && SetOf(s) <= {DRAIN, PREFLUSH, BAR, POSTFLUSH}
            && (PREFLUSH in s <==> !m.preflush) && (BAR in s <==> !m.bar) && (POSTFLUSH in s <==> !m.postflush)
            && (DRAIN in s <==> m.byTag || inFlight == 0)
  {
  }

  lemma StackedBooks(q: Q, next: Mode)
    requires Inv(q) && !InSeq(q) && q.queue != [] && IsBar(q.queue[0])
    ensures Books(Stacked(q, next))
  {
    hide ReqSeq, EndedWell, Proxies, ModeFor;
    var q1 := Stacked(q, next);
    HeadEpoch(q);
    assert Queued(q, q.queue[0]);
    assert FlyingAccounted(q1) == FlyingAccounted(q);
    assert SetOf(q1.h.steps) == {};
  }

  lemma StackedPending(q: Q, next: Mode, p: Rq)
    requires Inv(q) && !InSeq(q) && q.queue != [] && IsBar(q.queue[0]) && IsProxy(p)
    ensures Pending(Stacked(q, next), p) <==> p in Proxies(Stacked(q, next).mode)
    ensures p !in Stacked(q, next).started
  {
    hide Books, Barriers, ModeFor, Lists, Proxies;
    StackedIn(q, next);
    assert !Pending(q, p);
    assert p in q.queue[1..] ==> p in q.queue;
  }

  lemma ProxySteps(m: Mode, p: Rq)
    requires IsProxy(p)
    ensures p in Proxies(m) <==> ReqSeq(false, p) !in Skipped(m, 0)
    ensures ReqSeq(false, p) in {PREFLUSH, BAR, POSTFLUSH}
  {
  }

  lemma StartSequence(q: Q, next: Mode)
    requires Inv(q) && !InSeq(q) && q.queue != [] && IsBar(q.queue[0])
    ensures Sequence(StartOrdered(q, next).0)
  {
    hide Lists, Places, Books, Barriers, Stacked, Skipped, Proxies, CurSeq, ReqSeq, Inv;
    var q1 := Stacked(q, next);
    var skip := Skipped(q1.mode, q1.inFlight);
    var q2 := CompleteSeq(q1, skip, 0);
    SkippedFacts(q1.mode, q1.inFlight);
    SkippedFacts(q1.mode, 0);
    StackedStarted(q, next);
    CurSeqDone({STARTED} + SetOf(skip));
    forall p | IsProxy(p)
      ensures (Pending(q2, p) <==> InSeq(q2) && ReqSeq(false, p) !in q2.ordseq) && p !in q2.started
    {
      StackedPending(q, next, p);
      ProxySteps(q1.mode, p);
      assert Pending(q2, p) <==> Pending(q1, p);
    }
  }

  lemma StartKeeps(q: Q, next: Mode)
    requires Inv(q) && !InSeq(q) && q.queue != [] && IsBar(q.queue[0])
    ensures Inv(StartOrdered(q, next).0)
  {
    hide Lists, Places, Barriers, Sequence, Books, CompleteSeq, Stacked, Skipped;
    var q1 := Stacked(q, next);
    var skip := Skipped(q1.mode, q1.inFlight);
    SkippedFacts(q1.mode, q1.inFlight);
    StackedLists(q, next);
    StackedPlaces(q, next);
    StackedBarriers(q, next);
    StackedBooks(q, next);
    StackedStarted(q, next);
    CompleteSeqFrame(q1, skip, 0);
    CompleteSeqBooks(q1, skip, 0);
    StartSequence(q, next);
  }

  lemma StackedStarted(q: Q, next: Mode)
    requires q.queue != []
    ensures Stacked(q, next).ordseq == {STARTED}
  {
  }

  /** With QUEUE_ORDERED_NONE a barrier is failed on the spot. */
  lemma RejectKeeps(q: Q)
    requires Inv(q) && !InSeq(q) && q.queue != [] && IsBar(q.queue[0])
    ensures Inv(DoOrdered(q, None).0)
  {
    hide Lists, Sequence, FlyingAccounted;
    var q' := DoOrdered(q, None).0;
    HeadEpoch(q);
    HeadNotStarted(q);
    RejectLists(q);
    RejectSequence(q);
    FlyingSame(q, q');
  }

  lemma RejectLists(q: Q)
    requires Inv(q) && !InSeq(q) && q.queue != [] && IsBar(q.queue[0])
    ensures Lists(DoOrdered(q, None).0)
  {
    hide ReqSeq, Before, Books, Sequence;
    var q' := DoOrdered(q, None).0;
    RestOrdered(q, q.queue[0].color, false);
    NotRunning(q'.h.base, q.queue[0].color, q.orig.color, q'.queue);
    forall y | y in q'.queue ensures Queued(q', y) {
      BehindBarrier(q, y);
    }
    forall y | y in q'.flying ensures Known(q', y) && !IsBar(y) {
      assert Known(q, y);
    }
  }

  lemma RejectSequence(q: Q)
    requires Sequence(q) && !InSeq(q) && q.queue != [] && IsBar(q.queue[0])
    ensures Sequence(DoOrdered(q, None).0)
  {
    var q' := DoOrdered(q, None).0;
    forall p | IsProxy(p) ensures !Pending(q', p) {
      assert !Pending(q, p);
    }
  }

  /** With no sequence running the colour of the last barrier does not matter. */
  lemma NotRunning(base: nat, color: bool, color': bool, s: seq<Rq>)
    requires Ordered(Context(false, base, color), s)
    ensures Ordered(Context(false, base, color'), s)
  {
    forall i, j | 0 <= i < j < |s| ensures Before(Context(false, base, color'), s[i], s[j]) {
      assert Before(Context(false, base, color), s[i], s[j]);
    }
  }

  /** One round of elv_next_request. */
  lemma PeekKeeps(q: Q, next: Option<Mode>)
    requires Inv(q) && q.queue != []
    ensures Inv(Peek(q, next).0)
  {
    hide Inv, StartOrdered;
    assert InSeq(q) <==> q.ordseq != {};
    if InSeq(q) || !IsBar(q.queue[0]) {
      PeekPicksHead(q, next);
      if DoOrdered(q, next).1.rq.Some? {
        StartingKeeps(q, q.queue[0]);
      }
    } else if next.Some? {
      StartKeeps(q, next.value);
      StartHandsOut(q, next.value);
      var (q1, v) := StartOrdered(q, next.value);
      if v.Return? && v.rq.Some? {
        StartingKeeps(q1, v.rq.value);
      }
    } else {
      RejectKeeps(q);
    }
  }

  /** A sequence that starts drained hands out its first proxy at once. */
  lemma StartHandsOut(q: Q, next: Mode)
    requires Inv(q) && !InSeq(q) && q.queue != [] && IsBar(q.queue[0])
    ensures var (q', v) := StartOrdered(q, next);
            && (v.Gone? <==> !InSeq(q'))
            && (v.Return? && v.rq.Some? ==> IsProxy(v.rq.value) && MayStart(q', v.rq.value))
  {
    hide Inv, ModeFor, ReqSeq, CurSeq, Skipped, Proxies, Stacked;
    var q1 := Stacked(q, next);
    var skip := Skipped(q1.mode, q1.inFlight);
    var (q2, v) := StartOrdered(q, next);
    StackedStarted(q, next);
    if v.Return? && v.rq.Some? {
      FirstProxy(q1.mode, q1.inFlight);
      ProxiesOrdered(q1.mode, Ctx(q));
      StackedIn(q, next);
      assert v.rq.value in q1.queue;
    }
  }

  lemma FirstProxy(m: Mode, inFlight: int)
    requires DRAIN in Skipped(m, inFlight) && Proxies(m) != []
    ensures CurSeq({STARTED} + SetOf(Skipped(m, inFlight))) == ReqSeq(false, Proxies(m)[0])
  {
  }

  // ------------------------------------------------------- ending and requeueing

  lemma ReleasedLists(q: Q, r: Rq)
    requires Inv(q) && r in q.flying
    ensures Lists(Released(q, r)) && Places(Released(q, r)) && Barriers(Released(q, r)) && Books(Released(q, r))
  {
    hide Ordered, ReqSeq, Sequence, NoDup, FirstError, EndedWell;
    var q' := Released(q, r);
    assert Ctx(q') == Ctx(q);
    forall y | y in q'.queue ensures Queued(q', y) {
      assert Queued(q, y);
    }
    forall y | y in q'.flying ensures Known(q', y) && !IsBar(y) {
      assert Known(q, y);
    }
    FlyingLoses(q, q', r);
    BooksFrame(q, q');
  }

  lemma CompletedKeeps(q: Q, r: Rq)
    requires Inv(q) && r in q.flying && !IsProxy(r)
    ensures Inv(Completed(q, r))
  {
    hide Lists, Places, Barriers, Books, CompleteSeq, Sequence;
    var q1 := Released(q, r);
    ReleasedLists(q, r);
    SequenceFrame(q, q1);
    if Completed(q, r) != q1 {
      DrainCompletes(q1);
    }
  }

  lemma DrainCompletes(q: Q)
    requires Inv(q) && InSeq(q) && CurSeq(q.ordseq) == DRAIN
    ensures Inv(CompleteSeq(q, [DRAIN], 0))
  {
    hide Lists, Places, Barriers, Books, ReqSeq, CurSeq;
    var q' := CompleteSeq(q, [DRAIN], 0);
    assert SetOf([DRAIN]) == {DRAIN};
    CurSeqDone(q.ordseq);
    CompleteSeqFrame(q, [DRAIN], 0);
    CompleteSeqBooks(q, [DRAIN], 0);
    CurSeqDone(q.ordseq + {DRAIN});
    forall p | IsProxy(p)
      ensures (Pending(q', p) <==> InSeq(q') && ReqSeq(false, p) !in q'.ordseq) && (InSeq(q') ==> p !in q'.started)
    {
      ProxySteps(q.mode, p);
      assert Pending(q', p) <==> Pending(q, p);
    }
  }

  /** The BUG_ON in blk_ordered_complete_seq does not fire for a proxy's end_io. */
  lemma ProxyStepOpen(q: Q, r: Rq)
    requires Inv(q) && r in q.flying && IsProxy(r)
    ensures InSeq(q) && ReqSeq(false, r) !in q.ordseq && DRAIN in q.ordseq
    ensures Completed(q, r) == Released(q, r)
  {
    hide Lists, Barriers, Books, ReqSeq;
    assert Pending(q, r);
  }

  lemma ProxyEnds(q: Q, r: Rq, error: int)
    requires Inv(q) && r in q.flying && IsProxy(r)
    ensures Inv(EndRequest(q, r, error))
  {
    hide Lists, Places, Barriers, Books, ReqSeq, CurSeq, Completed;
    var q1, n := Released(q, r), ReqSeq(false, r);
    ProxyStepOpen(q, r);
    ProxySteps(q.mode, r);
    ReleasedLists(q, r);
    var q' := CompleteSeq(q1, [n], error);
    assert SetOf([n]) == {n};
    CompleteSeqFrame(q1, [n], error);
    CompleteSeqBooks(q1, [n], error);
    assert Sequence(q') by {
      ProxySequence(q, r, error);
    }
  }

  lemma ProxySequence(q: Q, r: Rq, error: int)
    requires Sequence(q) && Places(q) && r in q.flying && IsProxy(r) && InSeq(q) && ReqSeq(false, r) !in q.ordseq
    ensures Sequence(CompleteSeq(Released(q, r), [ReqSeq(false, r)], error))
  {
    hide CurSeq;
    var q1, n := Released(q, r), ReqSeq(false, r);
    var q' := CompleteSeq(q1, [n], error);
    assert SetOf([n]) == {n};
    CurSeqDone(q.ordseq);
    CurSeqDone(q.ordseq + {n});
    forall p | IsProxy(p)
      ensures Pending(q', p) <==> InSeq(q') && ReqSeq(false, p) !in q'.ordseq
    {
      assert Pending(q', p) <==> Pending(q, p) && p != r;
    }
  }

  lemma EndRequestKeeps(q: Q, r: Rq, error: int)
    requires Inv(q) && r in q.flying
    ensures Inv(EndRequest(q, r, error))
  {
    hide Inv, Completed;
    if IsProxy(r) {
      ProxyEnds(q, r, error);
    } else {
      CompletedKeeps(q, r);
    }
  }

  lemma NextBarrierAt(q: Q) returns (k: nat)
    requires Lists(q) && Barriers(q) && q.h.base < |q.h.bars|
    ensures k < |q.queue| && q.queue[k] == q.h.bars[q.h.base]
    ensures forall i | 0 <= i < k :: !IsBar(q.queue[i])
  {
    hide ReqSeq;
    assert q.h.bars[q.h.base] in q.queue;
    k :| 0 <= k < |q.queue| && q.queue[k] == q.h.bars[q.h.base];
    forall i | 0 <= i < k ensures !IsBar(q.queue[i]) {
      assert Before(Ctx(q), q.queue[i], q.queue[k]) && Queued(q, q.queue[i]);
    }
  }

  /** The walk stops at the next barrier at the latest. */
  lemma RequeueStops(q: Q, r: Rq, i: nat)
    requires Lists(q) && Barriers(q) && InSeq(q) && i < RequeuePos(q, r)
    ensures !IsBar(q.queue[i])
  {
    hide Ordered;
    assert Queued(q, q.queue[i]);
    if q.h.base < |q.h.bars| {
      var k := NextBarrierAt(q);
      assert ReqSeq(q.orig.color, q.queue[k]) == DONE;
    }
  }

  lemma RequeueBefore(q: Q, r: Rq, i: nat)
    requires Inv(q) && r in q.flying && i < RequeuePos(q, r)
    ensures Before(Ctx(q), q.queue[i], r)
  {
    hide Sequence, Books, Ordered;
    RequeueStops(q, r, i);
    assert Known(q, r) && !IsBar(r);
  }

  lemma RequeueAfter(q: Q, r: Rq, i: nat)
    requires Inv(q) && r in q.flying && RequeuePos(q, r) <= i < |q.queue|
    ensures Before(Ctx(q), r, q.queue[i])
  {
    hide Sequence, Books;
    assert Known(q, r) && !IsBar(r);
    var p, y := RequeuePos(q, r), q.queue[i];
    assert Queued(q, y);
    if p < i {
      assert Before(Ctx(q), q.queue[p], y);
    }
    assert Queued(q, q.queue[p]);
  }

  lemma RequeueLists(q: Q, r: Rq)
    requires Inv(q) && r in q.flying
    ensures Lists(Requeue(q, r))
  {
    hide Before, Ordered, ReqSeq, Sequence, Books, Barriers;
    var p, q' := RequeuePos(q, r), Requeue(q, r);
    assert Known(q, r);
    forall i | 0 <= i < p ensures Before(Ctx(q), q.queue[i], r) {
      RequeueBefore(q, r, i);
    }
    forall i | p <= i < |q.queue| ensures Before(Ctx(q), r, q.queue[i]) {
      RequeueAfter(q, r, i);
    }
    InsertLists(q, q', p, r);
  }

  lemma RequeueKeeps(q: Q, r: Rq)
    requires Inv(q) && r in q.flying
    ensures Inv(Requeue(q, r))
  {
    hide Lists, Sequence, Books, Accounted, ReqSeq;
    var q', p := Requeue(q, r), RequeuePos(q, r);
    RequeueLists(q, r);
    InsertIn(q.queue, p, r);
    SequenceFrame(q, q');
    BooksCount(q);
    FlyingLoses(q, q', r);
    BooksFrame(q, q');
  }

  // ----------------------------------------------------------------------- runs

  datatype Step =
    | InsertSort(r: Rq)
    | InsertFront(r: Rq)
    | InsertBack(r: Rq)
    | Handover(r: Rq, p: nat)
    | Next(mode: Option<Mode>)
    | Take(i: nat)
    | Finish(r: Rq, error: int)
    | GiveBack(r: Rq)

  /**
   What the callers of the block layer guarantee: new requests are fresh, only filesystem
   requests are barriers, no filesystem request is put at the front, back insertion finds
   the scheduler drained, and a driver takes only what it was handed.
   */
  ghost predicate Enabled(q: Q, s: Step) {
    match s
    case InsertSort(r) => r.kind == Fs && !r.barrier && Fresh(q, Coloured(q, r))
    case InsertFront(r) => r.kind == Special && !r.barrier && Fresh(q, Coloured(q, r))
    case InsertBack(r) =>
      q.sorter == {} && r.kind in {Fs, Special} && (r.barrier ==> r.kind == Fs) && Fresh(q, Coloured(q, r))
    case Handover(r, p) => r in q.sorter && MayDispatchAt(q, p)
    case Next(_) => q.queue != []
    case Take(i) => i < |q.queue| && q.queue[i] in q.started
    case Finish(r, _) => r in q.flying
    case GiveBack(r) => r in q.flying
  }

  ghost function Apply(q: Q, s: Step): Q
    requires Enabled(q, s)
  {
    match s
    case InsertSort(r) => AddSorted(q, r)
    case InsertFront(r) => AddFront(q, r)
    case InsertBack(r) => AddBack(q, r)
    case Handover(r, p) => Dispatch(q, r, p)
    case Next(mode) => Peek(q, mode).0
    case Take(i) => Dequeue(q, i)
    case Finish(r, error) => EndRequest(q, r, error)
    case GiveBack(r) => Requeue(q, r)
  }

  /** A queue as blk_init_queue leaves it. */
  ghost predicate Idle(q: Q) {
    && q.queue == [] && q.sorter == {} && q.flying == {} && q.started == {} && q.soft == {}
    && q.ordseq == {} && q.inFlight == 0 && !q.ordcolor
    && q.h == History([], 0, [], [], [])
  }

  ghost predicate IsRun(states: seq<Q>, steps: seq<Step>) {
    && |states| == |steps| + 1
    && Idle(states[0])
    && forall i | 0 <= i < |steps| :: Enabled(states[i], steps[i]) && states[i + 1] == Apply(states[i], steps[i])
  }

  lemma IdleInv(q: Q)
    requires Idle(q)
    ensures Inv(q)
  {
    assert FlyingAccounted(q) == {};
  }

  lemma StepKeeps(q: Q, s: Step)
    requires Inv(q) && Enabled(q, s)
    ensures Inv(Apply(q, s))
  {
    hide Inv, Peek, EndRequest, Requeue, Dequeue, Dispatch, AddBack, AddFront, AddSorted;
    match s
    case InsertSort(r) => AddSortedKeeps(q, r);
    case InsertFront(r) => AddFrontKeeps(q, r);
    case InsertBack(r) => AddBackKeeps(q, r);
    case Handover(r, p) => DispatchKeeps(q, r, p);
    case Next(mode) => PeekKeeps(q, mode);
    case Take(i) => DequeueKeeps(q, i);
    case Finish(r, error) => EndRequestKeeps(q, r, error);
    case GiveBack(r) => RequeueKeeps(q, r);
  }

  lemma {:induction false} RunKeeps(states: seq<Q>, steps: seq<Step>, i: nat)
    requires IsRun(states, steps) && i < |states|
    ensures Inv(states[i])
  {
    hide Inv, Apply, Enabled, Idle;
    if i == 0 {
      IdleInv(states[0]);
    } else {
      RunKeeps(states, steps, i - 1);
      StepKeeps(states[i - 1], steps[i - 1]);
    }
  }

  /**
   Bookkeeping, in tag and drain mode alike.  At any point of any run every barrier that has been
   started has ended exactly once, except the one whose sequence is running; it ended with the
   first error reported and after each step exactly once, or was refused for lack of support.
   */
  lemma BarriersEndOnce(states: seq<Q>, steps: seq<Step>, i: nat)
    requires IsRun(states, steps) && i < |states|
    ensures var q := states[i];
            && |q.h.ended| == q.h.base - (if InSeq(q) then 1 else 0)
            && q.h.base <= |q.h.bars|
            && forall e | 0 <= e < |q.h.ended| :: q.h.ended[e].rq == q.h.bars[e] && EndedWell(q.h.ended[e])
  {
    RunKeeps(states, steps, i);
  }

  /** blk_ordered_complete_seq is never called for a step that is already complete. */
  lemma CompletionsAreNew(states: seq<Q>, steps: seq<Step>, i: nat)
    requires IsRun(states, steps) && i < |steps| && steps[i].Finish?
    ensures var q, r := states[i], steps[i].r;
            && (IsProxy(r) ==> InSeq(q) && Completed(q, r) == Released(q, r) && ReqSeq(false, r) !in q.ordseq)
            && (!IsProxy(r) && Completed(q, r) != Released(q, r) ==> InSeq(q) && DRAIN !in q.ordseq)
  {
    hide Lists, Barriers, Books, ReqSeq;
    RunKeeps(states, steps, i);
    assert Enabled(states[i], steps[i]);
    if IsProxy(steps[i].r) {
      ProxyStepOpen(states[i], steps[i].r);
    }
  }

  /** Requeues and dispatches keep what is ahead of the next barrier in ordseq order. */
  lemma OrderAheadOfBarrier(states: seq<Q>, steps: seq<Step>, n: nat, i: nat, j: nat)
    requires IsRun(states, steps) && n < |states| && InSeq(states[n])
    requires i < j < |states[n].queue| && forall k | 0 <= k < j :: !IsBar(states[n].queue[k])
    requires states[n].queue[i].kind != Special && states[n].queue[j].kind != Special
    ensures var q := states[n]; ReqSeq(q.orig.color, q.queue[i]) <= ReqSeq(q.orig.color, q.queue[j])
  {
    hide Sequence, Books;
    RunKeeps(states, steps, n);
    var q := states[n];
    assert Before(Ctx(q), q.queue[i], q.queue[j]) && Queued(q, q.queue[j]);
    if q.h.base < |q.h.bars| && q.queue[j].kind == Fs {
      var k := NextBarrierAt(q);
      if j < k {
        assert Before(Ctx(q), q.queue[j], q.queue[k]);
      }
    }
  }

  // ------------------------------------------------------- safety in drain mode

  ghost predicate Unfinished(q: Q, r: Rq) {
    r in q.queue || r in q.sorter || r in q.flying
  }

  /** The oldest epoch that may still be unfinished, and the newest that may be with the driver. */
  ghost function Oldest(q: Q): int {
    if InSeq(q) && DRAIN !in q.ordseq then q.h.base - 1 else q.h.base
  }

  ghost function Newest(q: Q): int {
    if InSeq(q) then q.h.base - 1 else q.h.base
  }

  /** Of the colour of the barrier that is being drained for, or else of the next one: a requeue puts it before it. */
  ghost predicate Harmless(q: Q, r: Rq) {
    if InSeq(q) then DRAIN !in q.ordseq && r.color == q.orig.color else r.color == Odd(q.h.base)
  }

  ghost predicate Drained(q: Q) {
    && (InSeq(q) ==> !q.mode.byTag)
    && (forall r | Unfinished(q, r) && r.kind == Fs :: Oldest(q) <= r.epoch || Harmless(q, r))
    && (forall r | r in q.started && r.kind == Fs :: r.epoch <= Newest(q))
  }

  /** Every sequence is started in one of the QUEUE_ORDERED_DRAIN modes. */
  predicate DrainStep(s: Step) {
    s.Next? ==> s.mode.Some? && !s.mode.value.byTag
  }

  lemma EmptyFlying(q: Q, r: Rq)
    requires Books(q) && q.inFlight == 0 && r.kind == Fs
    ensures r !in q.flying
  {
    assert r in q.flying ==> r in FlyingAccounted(q);
  }

  lemma AddBackDrained(q: Q, r: Rq)
    requires Inv(q) && Drained(q) && Enabled(q, InsertBack(r))
    ensures Drained(AddBack(q, r))
  {
    hide Lists, Sequence, Books;
  }

  lemma InsertFrontDrained(q: Q, r: Rq)
    requires Inv(q) && Drained(q) && Enabled(q, InsertFront(r))
    ensures Drained(AddFront(q, r))
  {
    hide Lists, Sequence, Books;
  }

  lemma DispatchDrained(q: Q, r: Rq, p: nat)
    requires Inv(q) && Drained(q) && r in q.sorter && MayDispatchAt(q, p)
    ensures Drained(Dispatch(q, r, p))
  {
    hide Lists, Sequence, Books, Barriers, Insert;
    InsertIn(q.queue, p, r);
  }

  lemma RequeueDrained(q: Q, r: Rq)
    requires Inv(q) && Drained(q) && r in q.flying
    ensures Drained(Requeue(q, r))
  {
    hide Lists, Sequence, Books, Barriers, Insert;
    InsertIn(q.queue, RequeuePos(q, r), r);
  }

  lemma DequeueDrained(q: Q, i: nat)
    requires Inv(q) && Drained(q) && Enabled(q, Take(i))
    ensures Drained(Dequeue(q, i))
  {
    hide Lists, Sequence, Books, Barriers, Remove;
    StartedKind(q, i);
  }

  /** A filesystem request the drain has let through was queued before the barrier. */
  lemma HeadDrained(q: Q, mode: Option<Mode>)
    requires Inv(q) && Drained(q) && q.queue != [] && (InSeq(q) || !IsBar(q.queue[0]))
    ensures Drained(Peek(q, mode).0)
  {
    hide Sequence, Books, Ordered, CurSeq;
    PeekPicksHead(q, mode);
    var r := q.queue[0];
    if r.kind == Fs {
      HeadEpoch(q);
      assert Queued(q, r);
      SequenceOpen(q);
    }
  }

  lemma SequenceOpen(q: Q)
    requires Sequence(q)
    ensures CurSeq(q.ordseq) < DONE
  {
  }

  lemma StartDrained(q: Q, next: Mode)
    requires Inv(q) && Drained(q) && !InSeq(q) && q.queue != [] && IsBar(q.queue[0]) && !next.byTag
    ensures Drained(StartOrdered(q, next).0)
  {
    hide Lists, Sequence, Books, Skipped, Proxies, CurSeq;
    CurSeqDone({STARTED} + SetOf(Skipped(Stacked(q, next).mode, Stacked(q, next).inFlight))) by {
      SkippedFacts(Stacked(q, next).mode, Stacked(q, next).inFlight);
    }
    var q1, q2 := Stacked(q, next), StartOrdered(q, next).0;
    HeadEpoch(q);
    StackedIn(q, next);
    SkippedFacts(q1.mode, q1.inFlight);
    ProxiesOrdered(q1.mode, Ctx(q));
    assert q1.inFlight == q.inFlight by {
      HeadNotStarted(q);
    }
    forall r | Unfinished(q2, r) && r.kind == Fs ensures Oldest(q2) <= r.epoch || Harmless(q2, r) {
      if r in q.queue[1..] {
        BehindBarrier(q, r);
      } else if r in q.sorter {
        SorterEpoch(q, r);
      } else {
        assert r in q.flying && Unfinished(q, r);
        if q.inFlight == 0 {
          EmptyFlying(q, r);
        }
      }
    }
  }

  lemma HeadNotStarted(q: Q)
    requires Lists(q) && q.queue != [] && IsBar(q.queue[0])
    ensures q.queue[0] !in q.started
  {
    assert Queued(q, q.queue[0]);
  }

  lemma SorterEpoch(q: Q, r: Rq)
    requires Lists(q) && r in q.sorter
    ensures r.epoch == |q.h.bars|
  {
    hide Ordered;
    assert Sorted(r, |q.h.bars|);
  }

  /** When the drain is declared over, nothing queued before the barrier is left anywhere. */
  lemma DrainIsOver(q: Q, r: Rq)
    requires Inv(q) && Drained(q) && InSeq(q) && q.inFlight == 0
    requires q.queue == [] || ReqSeq(q.orig.color, q.queue[0]) > DRAIN
    requires Unfinished(q, r) && r.kind == Fs
    ensures q.h.base <= r.epoch
  {
    hide Sequence;
    if r in q.sorter {
      SorterEpoch(q, r);
    } else if r in q.queue {
      var i :| 0 <= i < |q.queue| && q.queue[i] == r;
      assert Queued(q, r);
      if 0 < i {
        assert Before(Ctx(q), q.queue[0], r);
      }
    } else {
      EmptyFlying(q, r);
    }
  }

  lemma ReleasedDrained(q: Q, r: Rq)
    requires Inv(q) && Drained(q) && r in q.flying
    ensures Drained(Released(q, r))
  {
    hide Lists, Sequence, Books, Barriers;
  }

  lemma CompletedDrained(q: Q, r: Rq)
    requires Inv(q) && Drained(q) && r in q.flying && !IsProxy(r)
    ensures Drained(Completed(q, r))
  {
    hide Lists, Places, Barriers, Books, Sequence, Drained;
    var q1, q' := Released(q, r), Completed(q, r);
    ReleasedDrained(q, r);
    ReleasedLists(q, r);
    SequenceFrame(q, q1);
    if q' != q1 {
      forall x | Unfinished(q1, x) && x.kind == Fs ensures q1.h.base <= x.epoch {
        DrainIsOver(q1, x);
      }
      AfterDrain(q1);
    }
  }

  lemma AfterDrain(q: Q)
    requires Drained(q) && InSeq(q)
    requires forall x | Unfinished(q, x) && x.kind == Fs :: q.h.base <= x.epoch
    ensures Drained(CompleteSeq(q, [DRAIN], 0))
  {
    var q' := CompleteSeq(q, [DRAIN], 0);
    assert forall x :: Unfinished(q', x) ==> Unfinished(q, x);
  }

  lemma ProxyDrained(q: Q, r: Rq, error: int)
    requires Inv(q) && Drained(q) && r in q.flying && IsProxy(r)
    ensures Drained(EndRequest(q, r, error))
  {
    hide Lists, Places, Barriers, Books, ReqSeq, Completed;
    ProxyStepOpen(q, r);
    ReleasedDrained(q, r);
    var q1, q' := Released(q, r), EndRequest(q, r, error);
    assert forall x :: Unfinished(q', x) ==> Unfinished(q1, x);
  }

  lemma StepDrained(q: Q, s: Step)
    requires Inv(q) && Drained(q) && Enabled(q, s) && DrainStep(s)
    ensures Drained(Apply(q, s))
  {
    hide Lists, Sequence, Books, Peek, EndRequest, Requeue, Dequeue, Dispatch, AddBack, AddFront;
    match s
    case InsertSort(r) =>
    case InsertFront(r) => InsertFrontDrained(q, r);
    case InsertBack(r) => AddBackDrained(q, r);
    case Handover(r, p) => DispatchDrained(q, r, p);
    case Next(mode) => NextDrained(q, mode);
    case Take(i) => DequeueDrained(q, i);
    case Finish(r, error) => FinishDrained(q, r, error);
    case GiveBack(r) => RequeueDrained(q, r);
  }

  lemma FinishDrained(q: Q, r: Rq, error: int)
    requires Inv(q) && Drained(q) && r in q.flying
    ensures Drained(EndRequest(q, r, error))
  {
    hide Inv, Drained, Completed;
    if IsProxy(r) {
      ProxyDrained(q, r, error);
    } else {
      CompletedDrained(q, r);
    }
  }

  lemma NextDrained(q: Q, mode: Option<Mode>)
    requires Inv(q) && Drained(q) && q.queue != [] && mode.Some? && !mode.value.byTag
    ensures Drained(Peek(q, mode).0)
  {
    hide Inv, StartOrdered;
    if InSeq(q) || !IsBar(q.queue[0]) {
      HeadDrained(q, mode);
    } else {
      StartDrained(q, mode.value);
      StartHandsOut(q, mode.value);
    }
  }

  /** An unfinished filesystem request from before the last barrier, of the colour the next one does not have. */
  ghost predicate Astray(q: Q, r: Rq) {
    Unfinished(q, r) && r.kind == Fs && r.epoch < q.h.base && Odd(r.epoch) != Odd(q.h.base)
  }

  /** Between sequences it is enough that there is none. */
  lemma QuietIsDrained(q: Q)
    requires Inv(q) && !InSeq(q) && forall r :: !Astray(q, r)
    ensures Drained(q)
  {
    hide Sequence, Books, Ordered;
    forall r | r in q.started && r.kind == Fs ensures r.epoch <= Newest(q) {
      assert Known(q, r);
    }
    forall r | Unfinished(q, r) && r.kind == Fs ensures Oldest(q) <= r.epoch || Harmless(q, r) {
      assert !Astray(q, r);
      if r in q.sorter {
        SorterEpoch(q, r);
      } else {
        assert Known(q, r);
      }
    }
  }

  lemma {:induction false} RunDrained(states: seq<Q>, steps: seq<Step>, k: nat, i: nat)
    requires IsRun(states, steps) && k <= i < |states| && Drained(states[k]) && forall j | k <= j < i :: DrainStep(steps[j])
    ensures Inv(states[i]) && Drained(states[i])
  {
    hide Inv, Apply, Enabled, Drained;
    RunKeeps(states, steps, i);
    if k < i {
      RunDrained(states, steps, k, i - 1);
      StepDrained(states[i - 1], steps[i - 1]);
    }
  }

  lemma IdleDrained(q: Q)
    requires Idle(q)
    ensures Drained(q)
  {
  }

  ghost predicate HandedOutSafely(q: Q, r: Rq) {
    && (IsProxy(r) ==>
          && InSeq(q)
          && (forall u | Unfinished(q, u) && u.kind == Fs :: q.orig.epoch < u.epoch)
          && (forall n: nat | STARTED <= n < ReqSeq(false, r) :: n in q.ordseq))
    && (r.kind == Fs ==>
          forall e: nat | e < r.epoch :: e < |q.h.ended| && e < |q.h.bars| && q.h.ended[e].rq == q.h.bars[e])
  }

  /**
   Safety over every run in drain mode, whatever the interleaving of adds, completions and requeues.
   A proxy is handed out only when every filesystem request queued before its barrier has finished
   and every earlier step of the sequence is complete; a filesystem request is handed out only when
   every barrier queued before it has ended.
   */
  lemma BarrierSafety(states: seq<Q>, steps: seq<Step>, i: nat, r: Rq)
    requires IsRun(states, steps) && i < |steps| && forall s | s in steps :: DrainStep(s)
    requires steps[i].Next? && Enabled(states[i], steps[i]) && Peek(states[i], steps[i].mode).1 == Return(Some(r))
    ensures HandedOutSafely(states[i + 1], r)
  {
    hide HandedOutSafely, Drained, Peek;
    IdleDrained(states[0]);
    SafetyFrom(states, steps, 0, i, r);
  }

  /**
   And so from any point k of any run, whatever modes it used before, at which what is unfinished from before
   the last barrier is harmless, for as long as drain mode is used from there on.
   */
  lemma SafetyFrom(states: seq<Q>, steps: seq<Step>, k: nat, i: nat, r: Rq)
    requires IsRun(states, steps) && k <= i < |steps| && Drained(states[k]) && forall j | k <= j <= i :: DrainStep(steps[j])
    requires steps[i].Next? && Enabled(states[i], steps[i]) && Peek(states[i], steps[i].mode).1 == Return(Some(r))
    ensures HandedOutSafely(states[i + 1], r)
  {
    hide Drained, Peek;
    RunDrained(states, steps, k, i + 1);
    RunKeeps(states, steps, i);
    PeekReturns(states[i], steps[i].mode, r);
    StartedIsSafe(states[i + 1], r);
  }

  lemma PeekReturns(q: Q, mode: Option<Mode>, r: Rq)
    requires Inv(q) && q.queue != [] && Peek(q, mode).1 == Return(Some(r))
    ensures r in Peek(q, mode).0.started
  {
    hide Inv, DoOrdered;
  }

  lemma StartedIsSafe(q: Q, r: Rq)
    requires Inv(q) && Drained(q) && r in q.started
    ensures HandedOutSafely(q, r)
  {
    hide Lists, FirstError;
    if IsProxy(r) {
      assert Pending(q, r);
    }
  }

  /** The WARN_ON in blk_do_ordered does not fire: the head of the queue is never behind the sequence. */
  lemma HeadNotBehind(q: Q)
    requires Inv(q) && Drained(q) && InSeq(q) && q.queue != [] && q.queue[0].kind != Special
    ensures ReqSeq(q.orig.color, q.queue[0]) >= CurSeq(q.ordseq)
  {
    hide Books, Places, Ordered;
    var r := q.queue[0];
    assert Queued(q, r);
    if IsProxy(r) {
      assert Pending(q, r);
    } else {
      HeadEpoch(q);
      assert Unfinished(q, r);
    }
  }

  lemma RunNotBehind(states: seq<Q>, steps: seq<Step>, i: nat)
    requires IsRun(states, steps) && i < |states| && forall s | s in steps :: DrainStep(s)
    requires InSeq(states[i]) && states[i].queue != [] && states[i].queue[0].kind != Special
    ensures ReqSeq(states[i].orig.color, states[i].queue[0]) >= CurSeq(states[i].ordseq)
  {
    hide Inv, Drained;
    IdleDrained(states[0]);
    RunDrained(states, steps, 0, i);
    HeadNotBehind(states[i]);
  }
}
