/**
 The request queue with a backlog of crypto/algapi.c, and the per-CPU queue and worker of
 crypto/cryptd.c on top of it.  Submissions are numbered, so a request submitted twice has two names.
 */
module CryptoQueue {
  import opened SortList

  const EINPROGRESS: int := -115
  const EBUSY: int := -16

  /** struct crypto_queue; backlog is the list head when None. */
  datatype Queue = Queue(list: seq<nat>, backlog: Option<nat>, qlen: int, maxQlen: nat)

  // -------------------------------------------------------------------- the queue

  /** crypto_enqueue_request. */
  function Enqueue(q: Queue, x: nat, mayBacklog: bool): (Queue, int) {
    if q.qlen >= q.maxQlen then
      if !mayBacklog then (q, EBUSY)
      else (q.(backlog := if q.backlog.None? then Some(x) else q.backlog, qlen := q.qlen + 1, list := q.list + [x]), EBUSY)
    else (q.(qlen := q.qlen + 1, list := q.list + [x]), EINPROGRESS)
  }

  /** crypto_dequeue_request. */
  function Dequeue(q: Queue): (Queue, Option<nat>)
    requires q.qlen != 0 ==> q.list != []
    requires q.backlog.Some? ==> q.backlog.value in q.list
  {
    if q.qlen == 0 then (q, None)
    else
      (q.(qlen := q.qlen - 1, backlog := if q.backlog.Some? then Next(q.list, q.backlog.value) else None,
          list := q.list[1..]), Some(q.list[0]))
  }

  /** The backlog pointer is the element at index max_qlen if there is one, and the list head otherwise. */
  ghost predicate QueueOk(q: Queue) {
    && Distinct(q.list) && q.qlen == |q.list|
    && q.backlog == if |q.list| > q.maxQlen then Some(q.list[q.maxQlen]) else None
  }

  lemma EnqueueOk(q: Queue, x: nat, mayBacklog: bool)
    requires QueueOk(q) && x !in q.list
    ensures QueueOk(Enqueue(q, x, mayBacklog).0)
  {
  }

  /**
   A request is refused only if the queue is full and it may not wait; it is told -EBUSY (-16) if the queue is full,
   -EINPROGRESS (-115) if not.
   */
  lemma EnqueueAnswers(q: Queue, x: nat, mayBacklog: bool)
    requires QueueOk(q)
    ensures var (r, err) := Enqueue(q, x, mayBacklog);
            && err == (if |q.list| >= q.maxQlen then -16 else -115)
            && r.list == if |q.list| >= q.maxQlen && !mayBacklog then q.list else q.list + [x]
  {
  }

  lemma DequeueOk(q: Queue)
    requires QueueOk(q)
    ensures q.qlen != 0 ==> q.list != []
    ensures q.backlog.Some? ==> q.backlog.value in q.list
    ensures QueueOk(Dequeue(q).0)
  {
    if q.backlog.Some? {
      IndexUnique(q.list, q.maxQlen);
    }
  }

  // ------------------------------------------------------------------ cryptd's worker

  /** Where the worker of a CPU is: idle, just started, holding what it took off, and so on to the end. */
  datatype Worker = Idle | Started | Took(backlog: Option<nat>, x: nat) | Serving(x: nat) | Served

  /**
   struct cryptd_cpu_queue with its work item.  History: accepted submissions in order with how they
   were accepted, callbacks with -EINPROGRESS, completions, and the number of submissions so far.
   */
  datatype St = St(
    q: Queue, pending: bool, worker: Worker,
    accepted: seq<nat>, busy: set<nat>, notified: seq<nat>, completed: seq<nat>, next: nat)

  datatype Step = EnqueueStep(mayBacklog: bool) | WorkerStep

  /** cryptd_enqueue_request: one atomic step, preemption being off. */
  function Submit(s: St, mayBacklog: bool): St {
    var (q, err) := Enqueue(s.q, s.next, mayBacklog);
    var s1 := s.(q := q, pending := true, next := s.next + 1);
    if err == EBUSY && !mayBacklog then s1
    else s1.(accepted := s.accepted + [s.next], busy := if err == EBUSY then s.busy + {s.next} else s.busy)
  }

  /** cryptd_queue_worker, one step at a time. */
  function Work(s: St): St
    requires s.q.qlen != 0 ==> s.q.list != []
    requires s.q.backlog.Some? ==> s.q.backlog.value in s.q.list
  {
    match s.worker
    case Idle => if s.pending then s.(pending := false, worker := Started) else s
    case Started =>
      var (q, x) := Dequeue(s.q);
      if x.None? then s.(q := q, worker := Idle) else s.(q := q, worker := Took(s.q.backlog, x.value))
    case Took(b, x) => s.(worker := Serving(x), notified := if b.Some? then s.notified + [b.value] else s.notified)
    case Serving(x) => s.(worker := Served, completed := s.completed + [x])
    case Served => s.(worker := Idle, pending := s.pending || s.q.qlen != 0)
  }

  /** The request the worker holds. */
  function InHand(w: Worker): seq<nat> {
    match w
    case Took(_, x) => [x]
    case Serving(x) => [x]
    case _ => []
  }

  function Owed(w: Worker): seq<nat> {
    if w.Took? && w.backlog.Some? then [w.backlog.value] else []
  }

  /** Those of a sequence accepted with -EBUSY. */
  function Busy(l: seq<nat>, busy: set<nat>): seq<nat> {
    if l == [] then [] else Busy(l[..|l| - 1], busy) + if l[|l| - 1] in busy then [l[|l| - 1]] else []
  }

  /** How many accepted submissions are within max_qlen of service. */
  function Reach(s: St): nat
    requires |s.q.list| <= |s.accepted|
  {
    |s.accepted| - if |s.q.list| > s.q.maxQlen then |s.q.list| - s.q.maxQlen else 0
  }

  /** Requests are served in the order of acceptance. */
  ghost predicate InOrder(s: St) {
    && Distinct(s.accepted) && (forall x | x in s.accepted :: x < s.next) && (forall x | x in s.busy :: x < s.next)
    && s.accepted == s.completed + InHand(s.worker) + s.q.list
  }

  /** Those beyond max_qlen were accepted with -EBUSY; a callback still owed is not for a completed request. */
  ghost predicate Late(s: St) {
    && (forall i | s.q.maxQlen <= i < |s.q.list| :: s.q.list[i] in s.busy)
    && (forall x | x in Owed(s.worker) :: x !in s.completed)
  }

  /** The callbacks made, and the one owed, are for the busy ones that came within reach, in order. */
  ghost predicate Noted(s: St) {
    |s.q.list| <= |s.accepted| && s.notified + Owed(s.worker) == Busy(s.accepted[..Reach(s)], s.busy)
  }

  ghost predicate Alive(s: St) {
    s.q.list != [] ==> s.pending || s.worker != Idle
  }

  ghost predicate Inv(s: St) {
    QueueOk(s.q) && InOrder(s) && Late(s) && Noted(s) && Alive(s)
  }

  lemma BusySnoc(l: seq<nat>, x: nat, busy: set<nat>)
    ensures Busy(l + [x], busy) == Busy(l, busy) + if x in busy then [x] else []
  {
    assert (l + [x])[..|l|] == l;
  }

  lemma {:induction false} BusyFrame(l: seq<nat>, busy: set<nat>, busy': set<nat>)
    requires forall x | x in l :: x in busy <==> x in busy'
    ensures Busy(l, busy) == Busy(l, busy')
  {
    if l != [] {
      BusyFrame(l[..|l| - 1], busy, busy');
      assert l[|l| - 1] in l;
    }
  }

  lemma SubmitOrder(s: St, mayBacklog: bool)
    requires InOrder(s)
    ensures InOrder(Submit(s, mayBacklog)) && s.next !in s.accepted && s.next !in s.q.list && s.next !in s.busy
  {
    var r := Submit(s, mayBacklog);
    assert s.next !in s.accepted;
    assert forall x | x in s.q.list :: x in s.accepted;
    if r.accepted != s.accepted {
      assert r.accepted == s.completed + InHand(s.worker) + (s.q.list + [s.next]);
    }
  }

  lemma SubmitNoted(s: St, mayBacklog: bool)
    requires QueueOk(s.q) && Noted(s) && s.next !in s.accepted && s.next !in s.busy
    ensures Noted(Submit(s, mayBacklog))
  {
    hide Distinct;
    var r, x, k := Submit(s, mayBacklog), s.next, Reach(s);
    if s.q.qlen >= s.q.maxQlen {
      if mayBacklog {
        assert r.accepted[..k] == s.accepted[..k];
        BusyFrame(s.accepted[..k], s.busy, r.busy);
      }
    } else {
      assert s.accepted[..k] == s.accepted && r.accepted[..Reach(r)] == s.accepted + [x];
      BusySnoc(s.accepted, x, s.busy);
    }
  }

  lemma SubmitKeeps(s: St, mayBacklog: bool)
    requires Inv(s)
    ensures Inv(Submit(s, mayBacklog))
  {
    hide Noted, InOrder, Distinct;
    SubmitOrder(s, mayBacklog);
    SubmitNoted(s, mayBacklog);
    EnqueueOk(s.q, s.next, mayBacklog);
  }

  lemma TakeOrder(s: St, x: nat, r: St)
    requires InOrder(s) && s.worker == Started && s.q.list != [] && x == s.q.list[0]
    requires r.q.list == s.q.list[1..] && InHand(r.worker) == [x]
    requires r.completed == s.completed && r.accepted == s.accepted && r.busy == s.busy && r.next == s.next
    ensures InOrder(r)
  {
    hide Distinct;
    assert s.q.list == [x] + s.q.list[1..];
    assert s.completed + [] + s.q.list == s.completed + [x] + s.q.list[1..];
  }

  lemma TakeNoted(s: St, r: St)
    requires QueueOk(s.q) && InOrder(s) && Late(s) && Noted(s) && s.worker == Started && s.q.list != []
    requires r.worker == Took(s.q.backlog, s.q.list[0]) && r.q.list == s.q.list[1..] && r.q.maxQlen == s.q.maxQlen
    requires r.accepted == s.accepted && r.busy == s.busy && r.notified == s.notified
    ensures Noted(r)
  {
    hide Distinct;
    if |s.q.list| > s.q.maxQlen {
      var k := Reach(s);
      assert Reach(r) == k + 1;
      assert s.accepted[k] == s.q.list[s.q.maxQlen];
      assert s.accepted[..k + 1] == s.accepted[..k] + [s.accepted[k]];
      BusySnoc(s.accepted[..k], s.accepted[k], s.busy);
    }
  }

  /** Taking the first one moves the pointer, and whoever it pointed to is owed a callback. */
  lemma TakeKeeps(s: St)
    requires Inv(s) && s.worker == Started && s.q.list != []
    requires s.q.backlog.Some? ==> s.q.backlog.value in s.q.list
    ensures Inv(Work(s))
  {
    DequeueOk(s.q);
    var r := Work(s);
    hide Distinct, Next, Noted, InOrder;
    TakeOrder(s, s.q.list[0], r);
    TakeNoted(s, r);
    NotCompleted(s);
  }

  lemma NotCompleted(s: St)
    requires InOrder(s)
    ensures forall x | x in s.q.list :: x !in s.completed
  {
    forall x | x in s.q.list ensures x !in s.completed {
      var j := Index(s.q.list, x);
      assert s.accepted[|s.completed| + |InHand(s.worker)| + j] == x;
      assert forall i | 0 <= i < |s.completed| :: s.accepted[i] == s.completed[i];
    }
  }

  lemma WalkKeeps(s: St)
    requires Inv(s) && s.worker != Started && (s.q.qlen != 0 ==> s.q.list != [])
    requires s.q.backlog.Some? ==> s.q.backlog.value in s.q.list
    ensures Inv(Work(s))
  {
    hide Busy, Distinct, Dequeue;
    var r := Work(s);
    assert r.accepted == r.completed + InHand(r.worker) + r.q.list;
    assert r.notified + Owed(r.worker) == s.notified + Owed(s.worker);
  }

  lemma WorkKeeps(s: St)
    requires Inv(s)
    ensures (s.q.qlen != 0 ==> s.q.list != []) && (s.q.backlog.Some? ==> s.q.backlog.value in s.q.list)
    ensures Inv(Work(s))
  {
    DequeueOk(s.q);
    hide QueueOk, InOrder, Late, Noted;
    if s.worker != Started {
      WalkKeeps(s);
    } else if s.q.list != [] {
      TakeKeeps(s);
    } else {
      NothingTaken(s);
    }
  }

  lemma NothingTaken(s: St)
    requires Inv(s) && s.worker == Started && s.q.list == [] && s.q.backlog.None?
    ensures Inv(Work(s))
  {
    hide Busy, Distinct;
  }

  ghost predicate Runs(s: St, steps: seq<Step>, r: St)
    requires Inv(s)
    decreases |steps|
  {
    if steps == [] then r == s
    else
      match steps[0]
      case EnqueueStep(mayBacklog) => (SubmitKeeps(s, mayBacklog); Runs(Submit(s, mayBacklog), steps[1..], r))
      case WorkerStep => (WorkKeeps(s); Runs(Work(s), steps[1..], r))
  }

  lemma {:induction false} RunKeeps(s: St, steps: seq<Step>, r: St)
    requires Inv(s) && Runs(s, steps, r)
    ensures Inv(r)
    decreases |steps|
  {
    if steps != [] {
      hide Inv, Submit, Work;
      match steps[0]
      case EnqueueStep(mayBacklog) =>
        SubmitKeeps(s, mayBacklog);
        RunKeeps(Submit(s, mayBacklog), steps[1..], r);
      case WorkerStep =>
        WorkKeeps(s);
        RunKeeps(Work(s), steps[1..], r);
    }
  }

  ghost predicate Fresh(s: St) {
    && s.q == Queue([], None, 0, s.q.maxQlen) && !s.pending && s.worker == Idle
    && s.accepted == [] && s.busy == {} && s.notified == [] && s.completed == []
  }

  lemma {:induction false} BusyNames(l: seq<nat>, busy: set<nat>)
    requires Distinct(l)
    ensures Distinct(Busy(l, busy)) && forall x :: x in Busy(l, busy) <==> x in l && x in busy
  {
    if l != [] {
      var k := |l| - 1;
      BusyNames(l[..k], busy);
      assert l == l[..k] + [l[k]];
      assert l[k] !in l[..k];
    }
  }

  /**
   In every state a CPU's queue can reach: service is in the order of acceptance; the backlog
   pointer is right; a request accepted with -EBUSY has had exactly one -EINPROGRESS callback by
   the time it completes, and no other request ever has one; and a queue that is not empty has its
   work pending or running.
   */
  lemma BacklogProtocol(init: St, steps: seq<Step>, s: St)
    requires Fresh(init) && Runs(init, steps, s)
    ensures s.completed + InHand(s.worker) + s.q.list == s.accepted
    ensures s.q.backlog == if |s.q.list| > s.q.maxQlen then Some(s.q.list[s.q.maxQlen]) else None
    ensures Distinct(s.notified) && forall x | x in s.notified :: x in s.busy && x in s.accepted
    ensures forall x | x in s.completed && x in s.busy :: x in s.notified
    ensures s.q.list != [] ==> s.pending || s.worker != Idle
  {
    RunKeeps(init, steps, s);
    Notices(s);
  }

  lemma Notices(s: St)
    requires Inv(s)
    ensures Distinct(s.notified) && forall x | x in s.notified :: x in s.busy && x in s.accepted
    ensures forall x | x in s.completed && x in s.busy :: x in s.notified
  {
    var k := Reach(s);
    var prefix := s.accepted[..k];
    BusyNames(prefix, s.busy);
    var all := s.notified + Owed(s.worker);
    assert forall i | 0 <= i < |s.notified| :: all[i] == s.notified[i];
    forall x | x in s.notified ensures x in s.busy && x in s.accepted {
      assert x in all;
    }
    forall x | x in s.completed && x in s.busy ensures x in s.notified {
      CompletedInReach(s, x);
    }
  }

  lemma CompletedInReach(s: St, x: nat)
    requires Inv(s) && x in s.completed && x in s.busy
    ensures x in s.notified
  {
    hide Busy, Distinct;
    var k := Reach(s);
    var i := Index(s.completed, x);
    assert s.accepted[i] == x && i < k;
    assert s.accepted[..k][i] == x;
    PrefixDistinct(s.accepted, k);
    BusyNames(s.accepted[..k], s.busy);
    assert x in s.notified + Owed(s.worker);
  }

  lemma PrefixDistinct(l: seq<nat>, k: nat)
    requires Distinct(l) && k <= |l|
    ensures Distinct(l[..k])
  {
  }

  // ------------------------------------------------------------------------- in place

  class RequestQueue {
    var list: seq<nat>
    var backlog: Option<nat>
    var qlen: int
    const maxQlen: nat

    ghost function State(): Queue
      reads this
    {
      Queue(list, backlog, qlen, maxQlen)
    }

    /** crypto_init_queue. */
    constructor (maxQlen: nat)
      ensures this.maxQlen == maxQlen && list == [] && QueueOk(State())
    {
      this.maxQlen := maxQlen;
      list, backlog, qlen := [], None, 0;
    }

    /** crypto_enqueue_request. */
    method EnqueueRequest(x: nat, mayBacklog: bool) returns (err: int)
      requires QueueOk(State()) && x !in list
      modifies this
      ensures QueueOk(State()) && (State(), err) == Enqueue(old(State()), x, mayBacklog)
    {
      EnqueueOk(State(), x, mayBacklog);
      err := EINPROGRESS;
      if qlen >= maxQlen {
        err := EBUSY;
        if !mayBacklog {
          return;
        }
        if backlog.None? {
          backlog := Some(x);
        }
      }
      qlen := qlen + 1;
      list := list + [x];
    }

    /** crypto_dequeue_request. */
    method DequeueRequest() returns (x: Option<nat>)
      requires QueueOk(State())
      modifies this
      ensures QueueOk(State())
      ensures x == (if old(list) == [] then None else Some(old(list)[0]))
      ensures list == (if old(list) == [] then [] else old(list)[1..])
    {
      DequeueOk(State());
      if qlen == 0 {
        return None;
      }
      qlen := qlen - 1;
      if backlog.Some? {
        backlog := Next(list, backlog.value);
      }
      x := Some(list[0]);
      list := list[1..];
    }
  }
}
