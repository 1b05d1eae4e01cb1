/**
 The asynchronous chaining IV generator of crypto/chainiv.c: callers, and the work
 item that serves postponed requests, race for one bit (CHAINIV_STATE_INUSE) that
 guards ctx->iv.  Each transition below is one access to shared memory, so a run is
 any interleaving of the threads under sequential consistency.
 */
module Chainiv {

  /** Where a thread stands: the access it is about to make, named after the function it is in. */
  datatype Pc =
    | First0 | First1 | First2 | First3 | First4 | First5   // async_chainiv_givencrypt_first
    | Give0 | Give1 | Give2                                 // async_chainiv_givencrypt
    | Tail0 | Tail1 | Tail2                                 // async_chainiv_givencrypt_tail
    | Sched0 | Sched1 | Sched2 | Sched3 | Sched4 | Sched5   // async_chainiv_schedule_work
    | Post0 | Post1 | Post2                                 // async_chainiv_postpone_request
    | Work0                                                 // async_chainiv_do_postponed
    | Done

  /**
   giv: req->giv.  info: subreq->info.  err: the value to be returned.
   owes (history): the thread let go of the bit and has not tried to take it again yet.
   slot (history): where in the record of uses its own encryption is, -1 if nowhere.
   worker (history): it runs the work item.  qlen (history): how long the queue was when its request was
   postponed, -1 if it was not.  ticket (history): the place of its request among those accepted, -1 if it has none.
   since (history): how many requests had been accepted when it was called.
   */
  datatype Thread = Thread(pc: Pc, req: nat, backlog: bool, giv: int, info: int, err: int, owes: bool, slot: int,
                           worker: bool, qlen: int, ticket: int, since: nat)

  /** One use of the IV: what was encrypted with it, how that ended, the IV the cipher left, and if the worker did it. */
  datatype Use = Use(req: nat, iv: int, err: int, next: int, late: bool)

  /**
   struct async_chainiv_ctx and its threads.  ready, seed and seedErr (history): the random source was asked,
   what it left in ctx->iv, and the error it returned.  uses (history): the encryptions in their order.
   accepted (history): the requests postponed.  hand (history): the one the worker has taken off the queue and
   not encrypted yet.
   */
  datatype Ctx = Ctx(
    inuse: bool, queue: seq<nat>, err: int, iv: int, pending: bool, first: bool,
    threads: map<nat, Thread>, ready: bool, seed: int, seedErr: int, uses: seq<Use>,
    accepted: seq<nat>, hand: seq<nat>)

  const MAX_QLEN := 100
  const EINPROGRESS: int := -115
  const EBUSY: int := -16

  /** What the world decides in a step: the error and output of the cipher or of the random source. */
  datatype Choice = Choice(err: int, value: int)

  datatype Step =
    | Call(t: nat, req: nat, backlog: bool)   // a new call through crt->givencrypt
    | Start(t: nat)                           // the workqueue starts the pending work item
    | Run(t: nat, c: Choice)                  // a thread makes its next access

  // ------------------------------------------------------------------- one access

  function Put(s: Ctx, t: nat, th: Thread): Ctx {
    s.(threads := s.threads[t := th])
  }

  predicate Full(s: Ctx) {
    |s.queue| >= MAX_QLEN
  }

  /** What an access does to shared memory.  The four at the top are test_and_set_bit. */
  function Shared(s: Ctx, th: Thread, c: Choice): Ctx {
    match th.pc
    case First0 | Give0 | Sched4 | Post1 => s.(inuse := true)
    case First4 | First5 | Give2 | Sched2 => s.(inuse := false)
    case First2 => s.(first := false)
    case First3 => s.(iv := c.value, ready := true, seed := c.value, seedErr := c.err)
    case Tail1 =>
      s.(err := c.err, uses := s.uses + [Use(th.req, th.giv, c.err, c.value, th.worker)], hand := if th.worker then [] else s.hand)
    case Tail2 => s.(iv := if s.err == 0 then th.info else s.iv)
    case Sched5 => s.(pending := true)
    case Post0 => if Full(s) && !th.backlog then s else s.(queue := s.queue + [th.req], accepted := s.accepted + [th.req])
    case Post2 => s.(err := th.err)
    case Work0 => if s.queue == [] then s else s.(queue := s.queue[1..], hand := [s.queue[0]])
    case _ => s
  }

  /** How the thread goes on after the access. */
  function Moved(s: Ctx, th: Thread, c: Choice): Thread {
    match th.pc
    case First0 => th.(pc := if s.inuse then Give0 else First1)
    case First1 => th.(pc := if s.first then First2 else First4)
    case First2 => th.(pc := First3)
    case First3 => if c.err == 0 then th.(pc := First4) else th.(pc := First5, err := c.err)
    case First4 => th.(pc := Give0, owes := true)
    case First5 => th.(pc := Done)
    case Give0 => th.(pc := if s.inuse then Post0 else Give1, owes := false)
    case Give1 => th.(pc := if s.queue != [] then Give2 else Tail0)
    case Give2 => th.(pc := Post0, owes := true)
    case Tail0 => th.(pc := Tail1, giv := s.iv)
    case Tail1 => th.(pc := Tail2, info := c.value, err := c.err, slot := |s.uses|)
    case Tail2 => th.(pc := Sched0)
    case Sched0 => th.(pc := Sched1, err := s.err)
    case Sched1 => th.(pc := if s.queue == [] then Sched2 else Sched5)
    case Sched2 => th.(pc := Sched3)
    case Sched3 => th.(pc := if s.queue == [] then Done else Sched4)
    case Sched4 => th.(pc := if s.inuse then Done else Sched5)
    case Sched5 => th.(pc := Done)
    case Post0 => th.(pc := Post1, owes := false, err := if Full(s) then EBUSY else EINPROGRESS, qlen := |s.queue|,
                    ticket := if Full(s) && !th.backlog then -1 else |s.accepted|)
    case Post1 => th.(pc := if s.inuse then Done else Post2)
    case Post2 => th.(pc := Sched0)
    case Work0 => if s.queue == [] then th.(pc := Sched0, err := s.err) else th.(pc := Tail0, req := s.queue[0])
    case Done => th
  }

  function Access(s: Ctx, t: nat, c: Choice): Ctx
    requires t in s.threads
  {
    Put(Shared(s, s.threads[t], c), t, Moved(s, s.threads[t], c))
  }

  predicate Enabled(s: Ctx, step: Step) {
    match step
    case Call(t, _, _) => t !in s.threads
    case Start(t) => t !in s.threads && s.pending
    case Run(t, _) => t in s.threads
  }

  function Apply(s: Ctx, step: Step): Ctx
    requires Enabled(s, step)
  {
    match step
    case Call(t, req, backlog) =>
      Put(s, t, Thread(if s.first then First0 else Give0, req, backlog, 0, 0, 0, false, -1, false, -1, -1, |s.accepted|))
    case Start(t) => Put(s, t, Thread(Work0, 0, false, 0, 0, 0, false, -1, true, -1, -1, 0)).(pending := false)
    case Run(t, c) => Access(s, t, c)
  }

  // -------------------------------------------------------------------- invariants

  /** The thread owns the bit: it may touch ctx->iv and ctx->err. */
  predicate Holds(pc: Pc) {
    match pc
    case First1 | First2 | First3 | First4 | First5 => true
    case Give1 | Give2 | Tail0 | Tail1 | Tail2 => true
    case Sched0 | Sched1 | Sched2 | Sched5 | Post2 | Work0 => true
    case _ => false
  }

  /** The thread has let go of the bit, or queued a request, and is yet to try for the bit. */
  predicate Handshakes(th: Thread) {
    match th.pc
    case Post1 | Sched3 | Sched4 => true
    case Give0 | Post0 => th.owes
    case _ => false
  }

  ghost predicate HeldBy(s: Ctx, t: nat) {
    t in s.threads && Holds(s.threads[t].pc)
  }

  /** The bit is set exactly while one thread, or the pending work item, owns it. */
  ghost predicate Exclusive(s: Ctx) {
    && (forall a, b | HeldBy(s, a) && HeldBy(s, b) :: a == b)
    && (forall a | HeldBy(s, a) :: s.inuse && !s.pending)
    && (s.pending ==> s.inuse)
    && (s.inuse && !s.pending ==> exists a :: HeldBy(s, a))
  }

  ghost predicate HandshakeBy(s: Ctx, t: nat) {
    t in s.threads && Handshakes(s.threads[t])
  }

  ghost predicate NotStranded(s: Ctx) {
    s.queue != [] && !s.inuse ==> exists a :: HandshakeBy(s, a)
  }

  /** Before the IV is seeded the bit is with the thread that will seed it, or nobody passed First0. */
  ghost predicate Seeding(s: Ctx) {
    !s.ready ==>
      && !s.pending
      && (forall t | t in s.threads :: s.threads[t].pc in {First0, First1, First2, First3, Give0, Post0, Post1, Done})
      && (forall t | t in s.threads && s.threads[t].pc in {Give0, Post0, Post1} :: s.inuse)
      && (forall t | t in s.threads :: !s.threads[t].owes)
      && (!s.first ==> s.inuse && forall t | HeldBy(s, t) :: s.threads[t].pc == First3)
      && (forall t | t in s.threads && s.threads[t].pc == First3 :: !s.first)
      && s.uses == [] && s.seedErr == 0
  }

  /** A caller that leaves for want of random bytes leaves because the random source failed. */
  ghost predicate Failed(s: Ctx) {
    forall t | t in s.threads && s.threads[t].pc == First5 :: s.seedErr != 0
  }

  ghost predicate SeededOnce(s: Ctx) {
    s.ready ==> !s.first && forall t | t in s.threads :: s.threads[t].pc !in {First2, First3}
  }

  /** The IV left by the last encryption that succeeded, the seed if there was none. */
  function LastIv(seed: int, uses: seq<Use>): int {
    if uses == [] then seed
    else if uses[|uses| - 1].err == 0 then uses[|uses| - 1].next
    else LastIv(seed, uses[..|uses| - 1])
  }

  /** Every use takes the IV the last successful one left. */
  ghost predicate Chained(s: Ctx) {
    forall k | 0 <= k < |s.uses| :: s.uses[k].iv == LastIv(s.seed, s.uses[..k])
  }

  /** What the owner of the bit knows, by where it stands. */
  ghost predicate OwnerKnows(s: Ctx, th: Thread) {
    match th.pc
    case Tail1 => s.iv == LastIv(s.seed, s.uses) && th.giv == s.iv
    case Tail2 =>
      && |s.uses| >= 1 && th.slot == |s.uses| - 1 && s.err == th.err
      && s.uses[|s.uses| - 1] == Use(th.req, th.giv, th.err, th.info, th.worker)
      && s.iv == LastIv(s.seed, s.uses[..|s.uses| - 1])
    case Sched0 => s.err == th.err && s.iv == LastIv(s.seed, s.uses)
    case _ => s.ready ==> s.iv == LastIv(s.seed, s.uses)
  }

  ghost predicate IvRight(s: Ctx) {
    && (forall t | HeldBy(s, t) :: OwnerKnows(s, s.threads[t]))
    && (s.ready && (s.pending || !s.inuse) ==> s.iv == LastIv(s.seed, s.uses))
  }

  predicate PastTail(pc: Pc) {
    match pc
    case Tail2 | Sched0 | Sched1 | Sched2 | Sched3 | Sched4 | Sched5 | Done => true
    case _ => false
  }

  /** A thread that has encrypted returns what its own encryption returned. */
  ghost predicate OwnResult(s: Ctx, th: Thread) {
    th.slot >= 0 ==>
      && th.slot < |s.uses|
      && PastTail(th.pc)
      && s.uses[th.slot].req == th.req && s.uses[th.slot].err == th.err
  }

  ghost predicate Results(s: Ctx) {
    forall t | t in s.threads :: OwnResult(s, s.threads[t])
  }

  // ------------------------------------------------------------- postponed requests

  /** The requests the worker has encrypted, in order. */
  function Served(uses: seq<Use>): seq<nat> {
    if uses == [] then []
    else Served(uses[..|uses| - 1]) + if uses[|uses| - 1].late then [uses[|uses| - 1].req] else []
  }

  /** What was postponed is, in order, what was encrypted late, what the worker has in hand, and the queue. */
  ghost predicate Fifo(s: Ctx) {
    s.accepted == Served(s.uses) + s.hand + s.queue
  }

  /** The worker is about to encrypt. */
  predicate InHand(th: Thread) {
    th.worker && (th.pc.Tail0? || th.pc.Tail1?)
  }

  /** What is in hand is the request of a worker about to encrypt it. */
  ghost predicate Hands(s: Ctx) {
    && (s.hand != [] ==> exists t :: t in s.threads && InHand(s.threads[t]) && s.hand == [s.threads[t].req])
    && (forall t | t in s.threads && InHand(s.threads[t]) :: s.hand == [s.threads[t].req])
  }

  /** Where a caller can be that has neither encrypted, nor been postponed, nor given up. */
  predicate Unserved(pc: Pc) {
    match pc
    case First0 | First1 | First2 | First3 | First4 | First5 | Give0 | Give1 | Give2 | Tail0 | Tail1 | Post0 => true
    case _ => false
  }

  /**
   A caller that is past that has encrypted itself, or was postponed and holds -EBUSY (-16) if the queue was 100
   long or more and -EINPROGRESS (-115) if not, or has given up with the error of the random source.
   */
  ghost predicate Explained(s: Ctx, th: Thread) {
    && (th.worker ==>
          && th.qlen == -1
          && th.pc !in {First0, First1, First2, First3, First4, First5, Give0, Give1, Give2, Post0, Post1, Post2})
    && (th.qlen >= 0 ==> th.slot < 0 && !Unserved(th.pc) && th.pc != Work0 && th.err == if th.qlen >= 100 then -16 else -115)
    && (!th.worker ==> th.pc != Work0)
    && (!th.worker && th.pc == First5 ==> th.err == s.seedErr && s.seedErr != 0 && s.ready)
    && (!th.worker && !Unserved(th.pc) ==>
          th.slot >= 0 || th.qlen >= 0 || (th.pc == Done && s.seedErr != 0 && th.err == s.seedErr && s.ready))
  }

  ghost predicate AllExplained(s: Ctx) {
    forall t | t in s.threads :: Explained(s, s.threads[t])
  }

  /** A request that was postponed is refused only if the queue is full and it is not allowed to be backlogged. */
  ghost predicate Ticketed(s: Ctx, th: Thread) {
    && (th.ticket >= 0 <==> th.qlen >= 0 && (th.qlen < 100 || th.backlog))
    && (th.ticket >= 0 ==>
          && !th.worker && !Unserved(th.pc) && !th.pc.Work0?
          && th.ticket < |s.accepted| && s.accepted[th.ticket] == th.req)
  }

  ghost predicate HasTicket(s: Ctx, t: nat, k: int) {
    t in s.threads && s.threads[t].ticket == k
  }

  ghost predicate Taken(s: Ctx, k: int) {
    exists t :: HasTicket(s, t, k)
  }

  /** The requests accepted are those of the callers that were postponed, one each. */
  ghost predicate Tickets(s: Ctx) {
    && (forall t | t in s.threads :: Ticketed(s, s.threads[t]))
    && (forall k | 0 <= k < |s.accepted| :: Taken(s, k))
    && (forall k, a, b | 0 <= k < |s.accepted| && HasTicket(s, a, k) && HasTicket(s, b, k) :: a == b)
  }

  /** A caller that encrypts does so after all that was postponed before it was called. */
  ghost predicate Waited(s: Ctx, th: Thread) {
    !th.worker ==>
      && th.since <= |s.accepted|
      && (th.pc.Tail0? || th.pc.Tail1? ==> th.since <= |Served(s.uses)|)
      && (th.slot >= 0 ==> th.slot <= |s.uses| && th.since <= |Served(s.uses[..th.slot])|)
  }

  ghost predicate AllWaited(s: Ctx) {
    forall t | t in s.threads :: Waited(s, s.threads[t])
  }

  ghost predicate Inv(s: Ctx) {
    && Exclusive(s) && Fifo(s) && Hands(s) && AllExplained(s) && Tickets(s) && AllWaited(s)
    && Seeding(s) && SeededOnce(s) && Failed(s) && Chained(s) && IvRight(s) && Results(s)
    && (s.seedErr == 0 ==> NotStranded(s))
  }

  // ------------------------------------------------------------- moving one thread

  lemma StaysExclusive(s: Ctx, s': Ctx, t: nat, th: Thread)
    requires Exclusive(s) && t in s.threads && s'.threads == s.threads[t := th]
    requires Holds(th.pc) <==> Holds(s.threads[t].pc)
    requires s'.inuse == s.inuse && s'.pending == s.pending
    ensures Exclusive(s')
  {
    forall a ensures HeldBy(s', a) <==> HeldBy(s, a) {}
  }

  lemma AcquireExclusive(s: Ctx, s': Ctx, t: nat, th: Thread)
    requires Exclusive(s) && s'.threads == s.threads[t := th] && Holds(th.pc)
    requires s'.inuse && !s'.pending && (!s.inuse || (s.pending && t !in s.threads))
    ensures Exclusive(s')
  {
    assert HeldBy(s', t);
    forall a ensures HeldBy(s', a) <==> a == t {
      assert HeldBy(s', a) && a != t ==> HeldBy(s, a);
    }
  }

  lemma ReleaseExclusive(s: Ctx, s': Ctx, t: nat, th: Thread)
    requires Exclusive(s) && HeldBy(s, t) && s'.threads == s.threads[t := th] && !Holds(th.pc)
    requires s'.inuse == s'.pending
    ensures Exclusive(s')
  {
    forall a ensures !HeldBy(s', a) {
      assert HeldBy(s', a) ==> HeldBy(s, a) && a != t;
    }
  }

  predicate Tries(pc: Pc) {
    pc.First0? || pc.Give0? || pc.Sched4? || pc.Post1?
  }

  predicate LetsGo(pc: Pc) {
    pc.First4? || pc.First5? || pc.Give2? || pc.Sched2?
  }

  lemma TriesForBit(s: Ctx, th: Thread, c: Choice)
    requires Tries(th.pc)
    ensures !Holds(th.pc) && (Holds(Moved(s, th, c).pc) <==> !s.inuse)
    ensures Shared(s, th, c) == s.(inuse := true)
  {
  }

  lemma LetsGoOfBit(s: Ctx, th: Thread, c: Choice)
    requires LetsGo(th.pc)
    ensures Holds(th.pc) && !Holds(Moved(s, th, c).pc) && Shared(s, th, c) == s.(inuse := false)
  {
  }

  lemma KeepsBit(s: Ctx, th: Thread, c: Choice)
    requires !Tries(th.pc) && !LetsGo(th.pc) && !th.pc.Sched5?
    ensures Holds(Moved(s, th, c).pc) <==> Holds(th.pc)
    ensures Shared(s, th, c).inuse == s.inuse && Shared(s, th, c).pending == s.pending
  {
    hide Shared, Moved, Holds, Tries, LetsGo;
    KeepsOwner(s, th, c);
    LeavesBit(s, th, c);
  }

  lemma KeepsOwner(s: Ctx, th: Thread, c: Choice)
    requires !Tries(th.pc) && !LetsGo(th.pc) && !th.pc.Sched5?
    ensures Holds(Moved(s, th, c).pc) <==> Holds(th.pc)
  {
    hide Shared;
  }

  lemma LeavesBit(s: Ctx, th: Thread, c: Choice)
    requires !Tries(th.pc) && !LetsGo(th.pc) && !th.pc.Sched5?
    ensures Shared(s, th, c).inuse == s.inuse && Shared(s, th, c).pending == s.pending
  {
    match th.pc
    case Tail1 =>
    case Tail2 =>
    case Post0 =>
    case Post2 =>
    case Work0 =>
    case _ =>
  }

  lemma SharedThreads(s: Ctx, th: Thread, c: Choice)
    ensures Shared(s, th, c).threads == s.threads
  {
  }

  lemma AccessExclusive(s: Ctx, t: nat, c: Choice)
    requires Exclusive(s) && t in s.threads
    ensures Exclusive(Access(s, t, c))
  {
    hide Exclusive, Shared, Moved, Holds;
    var th, s' := s.threads[t], Access(s, t, c);
    var th' := Moved(s, th, c);
    SharedThreads(s, th, c);
    HolderFacts(s, t);
    if Tries(th.pc) {
      TriesForBit(s, th, c);
      if s.inuse {
        StaysExclusive(s, s', t, th');
      } else {
        AcquireExclusive(s, s', t, th');
      }
    } else if LetsGo(th.pc) {
      LetsGoOfBit(s, th, c);
      ReleaseExclusive(s, s', t, th');
    } else if th.pc.Sched5? {
      PassesBit(s, th, c);
      ReleaseExclusive(s, s', t, th');
    } else {
      KeepsBit(s, th, c);
      StaysExclusive(s, s', t, th');
    }
  }

  lemma PassesBit(s: Ctx, th: Thread, c: Choice)
    requires th.pc.Sched5?
    ensures Holds(th.pc) && !Holds(Moved(s, th, c).pc) && Shared(s, th, c) == s.(pending := true)
  {
  }

  lemma HolderFacts(s: Ctx, t: nat)
    requires Exclusive(s)
    ensures HeldBy(s, t) ==> s.inuse && !s.pending
    ensures s.pending ==> s.inuse
  {
  }

  lemma AccessNotStranded(s: Ctx, t: nat, c: Choice)
    requires Exclusive(s) && NotStranded(s) && t in s.threads && s.threads[t].pc != First5
    ensures NotStranded(Access(s, t, c))
  {
    hide Exclusive;
    HolderFacts(s, t);
    var s' := Access(s, t, c);
    if s'.queue != [] && !s'.inuse {
      if HandshakeBy(s', t) {
      } else if s.queue != [] && !s.inuse {
        var a :| HandshakeBy(s, a);
        assert a != t ==> HandshakeBy(s', a);
      }
    }
  }

  // ---------------------------------------------------------------- the IV itself

  /** Only the owner of the bit writes the IV, the error and the record of uses. */
  lemma OthersLeaveIv(s: Ctx, th: Thread, c: Choice)
    requires !Holds(th.pc)
    ensures var s' := Shared(s, th, c);
            s'.iv == s.iv && s'.err == s.err && s'.uses == s.uses && s'.seed == s.seed && s'.ready == s.ready
  {
  }

  /** The owner's steps that touch neither the IV nor the record. */
  lemma OwnerWalksOn(s: Ctx, th: Thread, c: Choice)
    requires Holds(th.pc) && OwnerKnows(s, th)
    requires !th.pc.First3? && !th.pc.Tail0? && !th.pc.Tail1? && !th.pc.Tail2?
    requires th.pc.Work0? || th.pc.Post2? ==> s.ready
    ensures var s', th' := Shared(s, th, c), Moved(s, th, c);
            && (Holds(th'.pc) ==> OwnerKnows(s', th'))
            && (!Holds(th'.pc) && s'.ready ==> s'.iv == LastIv(s'.seed, s'.uses))
  {
    hide LastIv, Shared, Moved, Holds;
    WalkLeavesIv(s, th, c);
    WalkGoesTo(s, th, c);
  }

  lemma WalkLeavesIv(s: Ctx, th: Thread, c: Choice)
    requires !th.pc.First3? && !th.pc.Tail1? && !th.pc.Tail2?
    ensures var s' := Shared(s, th, c); s'.iv == s.iv && s'.uses == s.uses && s'.seed == s.seed && s'.ready == s.ready
  {
  }

  lemma WalkGoesTo(s: Ctx, th: Thread, c: Choice)
    requires Holds(th.pc) && !th.pc.First3? && !th.pc.Tail0? && !th.pc.Tail1? && !th.pc.Tail2?
    ensures var s', th' := Shared(s, th, c), Moved(s, th, c);
            && !th'.pc.Tail1? && !th'.pc.Tail2?
            && (th'.pc.Sched0? ==> (th.pc.Work0? || th.pc.Post2?) && s'.err == th'.err)
  {
  }

  lemma SeederGoesOn(s: Ctx, th: Thread, c: Choice)
    requires th.pc.First3? && s.uses == []
    ensures OwnerKnows(Shared(s, th, c), Moved(s, th, c)) && Holds(Moved(s, th, c).pc)
  {
  }

  /** Reading the IV, and encrypting with it: one more use on the record. */
  lemma EncrypterGoesOn(s: Ctx, th: Thread, c: Choice)
    requires OwnerKnows(s, th) && (th.pc.Tail1? || (th.pc.Tail0? && s.ready))
    ensures OwnerKnows(Shared(s, th, c), Moved(s, th, c)) && (Moved(s, th, c).pc.Tail1? || Moved(s, th, c).pc.Tail2?)
  {
    hide LastIv;
    assert th.pc == Tail1 ==> Shared(s, th, c).uses[..|s.uses|] == s.uses;
  }

  lemma WriterGoesOn(s: Ctx, th: Thread, c: Choice)
    requires OwnerKnows(s, th) && th.pc.Tail2?
    ensures OwnerKnows(Shared(s, th, c), Moved(s, th, c)) && Moved(s, th, c).pc.Sched0?
  {
  }

  lemma OwnerGoesOn(s: Ctx, th: Thread, c: Choice)
    requires Holds(th.pc) && OwnerKnows(s, th) && (th.pc == First3 ==> s.uses == [])
    requires !th.pc.First0? && (th.pc.Tail0? || th.pc.Work0? || th.pc.Post2? ==> s.ready)
    ensures var s', th' := Shared(s, th, c), Moved(s, th, c);
            && (Holds(th'.pc) ==> OwnerKnows(s', th'))
            && (!Holds(th'.pc) && s'.ready ==> s'.iv == LastIv(s'.seed, s'.uses))
  {
    hide OwnerKnows, Shared, Moved, LastIv;
    match th.pc
    case First3 => SeederGoesOn(s, th, c);
    case Tail0 | Tail1 => EncrypterGoesOn(s, th, c);
    case Tail2 => WriterGoesOn(s, th, c);
    case _ => OwnerWalksOn(s, th, c);
  }

  lemma OwnerKnowsFrame(s: Ctx, s': Ctx, th: Thread)
    requires OwnerKnows(s, th)
    requires s'.iv == s.iv && s'.err == s.err && s'.uses == s.uses && s'.seed == s.seed && s'.ready == s.ready
    ensures OwnerKnows(s', th)
  {
  }

  /** A thread that has just won the bit. */
  lemma NewOwnerKnows(s: Ctx, th: Thread)
    requires s.ready ==> s.iv == LastIv(s.seed, s.uses)
    requires th.pc.First1? || th.pc.Give1? || th.pc.Sched5? || th.pc.Post2? || th.pc.Work0?
    ensures OwnerKnows(s, th)
  {
  }

  lemma WonPc(s: Ctx, th: Thread, c: Choice)
    requires !Holds(th.pc) && Holds(Moved(s, th, c).pc)
    ensures !s.inuse && (var pc := Moved(s, th, c).pc; pc.First1? || pc.Give1? || pc.Sched5? || pc.Post2?)
  {
  }

  lemma NonOwnerBit(s: Ctx, th: Thread, c: Choice)
    requires !Holds(th.pc)
    ensures Shared(s, th, c).pending == s.pending && (s.inuse ==> Shared(s, th, c).inuse)
  {
  }

  lemma AccessIv(s: Ctx, t: nat, c: Choice)
    requires Exclusive(s) && IvRight(s) && Seeding(s) && SeededOnce(s) && t in s.threads
    requires Exclusive(Access(s, t, c))
    ensures IvRight(Access(s, t, c))
  {
    hide Shared, Moved, OwnerKnows, Holds, LastIv;
    var th, s1, th' := s.threads[t], Shared(s, s.threads[t], c), Moved(s, s.threads[t], c);
    var s' := Access(s, t, c);
    SharedThreads(s, th, c);
    if Holds(th.pc) {
      assert HeldBy(s, t);
      OwnerReady(s, t);
      OwnerGoesOn(s, th, c);
      forall a | HeldBy(s', a) ensures OwnerKnows(s', s'.threads[a]) {
        assert a != t ==> HeldBy(s, a);
        OwnerKnowsFrame(s1, s', th');
      }
      assert Holds(th'.pc) ==> HeldBy(s', t);
    } else {
      OthersLeaveIv(s, th, c);
      NonOwnerBit(s, th, c);
      forall a | HeldBy(s', a) ensures OwnerKnows(s', s'.threads[a]) {
        if a == t {
          WonPc(s, th, c);
          NewOwnerKnows(s', th');
        } else {
          assert HeldBy(s, a);
          OwnerKnowsFrame(s, s', s'.threads[a]);
        }
      }
    }
  }

  lemma OwnerReady(s: Ctx, t: nat)
    requires Seeding(s) && SeededOnce(s) && HeldBy(s, t)
    ensures s.threads[t].pc == First3 ==> s.uses == [] && !s.ready
    ensures s.threads[t].pc !in {First1, First2, First3} ==> s.ready
    ensures !s.threads[t].pc.First0?
  {
  }

  lemma UsesGrow(s: Ctx, th: Thread, c: Choice)
    ensures var s' := Shared(s, th, c);
            && (th.pc != Tail1 ==> s'.uses == s.uses)
            && (th.pc == Tail1 ==> s'.uses == s.uses + [Use(th.req, th.giv, c.err, c.value, th.worker)])
            && (th.pc != First3 ==> s'.seed == s.seed && s'.ready == s.ready && s'.seedErr == s.seedErr)
            && (th.pc == First3 ==> s'.ready && s'.seedErr == c.err)
            && (th.pc != First2 ==> s'.first == s.first)
  {
  }

  lemma AccessChained(s: Ctx, t: nat, c: Choice)
    requires Chained(s) && IvRight(s) && Seeding(s) && SeededOnce(s) && t in s.threads
    ensures Chained(Access(s, t, c))
  {
    hide Shared, Moved, LastIv, Seeding, SeededOnce;
    var th, s' := s.threads[t], Access(s, t, c);
    UsesGrow(s, th, c);
    assert th.pc == First3 ==> s.uses == [] by {
      if th.pc == First3 {
        OwnerReady(s, t);
      }
    }
    if th.pc == Tail1 {
      assert HeldBy(s, t) && OwnerKnows(s, th);
      assert s'.uses[..|s.uses|] == s.uses;
      forall k | 0 <= k < |s'.uses| ensures s'.uses[k].iv == LastIv(s'.seed, s'.uses[..k]) {
        assert k < |s.uses| ==> s'.uses[..k] == s.uses[..k];
      }
    }
  }

  lemma MovedResult(s: Ctx, th: Thread, c: Choice)
    requires OwnResult(s, th) && (Holds(th.pc) ==> OwnerKnows(s, th))
    ensures OwnResult(Shared(s, th, c), Moved(s, th, c))
  {
    hide LastIv, Shared;
    UsesGrow(s, th, c);
    StaysPastTail(s, th, c);
  }

  lemma StaysPastTail(s: Ctx, th: Thread, c: Choice)
    ensures var th' := Moved(s, th, c);
            && (PastTail(th.pc) ==> PastTail(th'.pc) && th'.slot == th.slot && th'.req == th.req)
            && (PastTail(th.pc) && !th.pc.Sched0? ==> th'.err == th.err)
            && (th.pc.Sched0? ==> th'.err == s.err)
            && (!PastTail(th.pc) && !th.pc.Tail1? ==> th'.slot == th.slot)
  {
  }

  lemma AccessResults(s: Ctx, t: nat, c: Choice)
    requires Results(s) && IvRight(s) && t in s.threads
    ensures Results(Access(s, t, c))
  {
    hide Shared, Moved, OwnerKnows, Holds;
    var th, s' := s.threads[t], Access(s, t, c);
    assert Holds(th.pc) ==> HeldBy(s, t);
    MovedResult(s, th, c);
    UsesGrow(s, th, c);
    SharedThreads(s, th, c);
    forall a | a in s'.threads ensures OwnResult(s', s'.threads[a]) {
      assert a != t ==> OwnResult(s, s.threads[a]);
    }
  }

  // ----------------------------------------------------------------------- seeding

  lemma SeedingMoves(s: Ctx, th: Thread, c: Choice)
    requires !s.ready && th.pc in {First0, First1, First2, First3, Give0, Post0, Post1, Done}
    requires !th.owes && (th.pc in {Give0, Post0, Post1} ==> s.inuse)
    requires !s.first ==> s.inuse
    requires th.pc == First1 ==> s.first
    ensures var s', th' := Shared(s, th, c), Moved(s, th, c);
            && s'.pending == s.pending && (s.inuse ==> s'.inuse) && s'.uses == s.uses
            && (s'.ready <==> th.pc == First3)
            && (s'.first <==> s.first && th.pc != First2)
            && (!s'.ready ==>
                  && th'.pc in {First0, First1, First2, First3, Give0, Post0, Post1, Done}
                  && !th'.owes && (th'.pc in {Give0, Post0, Post1} ==> s'.inuse)
                  && (th'.pc == First3 <==> th.pc == First2)
                  && (Holds(th'.pc) && !Holds(th.pc) ==> !s.inuse))
  {
  }

  lemma AccessSeeding(s: Ctx, t: nat, c: Choice)
    requires Exclusive(s) && Seeding(s) && SeededOnce(s) && t in s.threads
    ensures Seeding(Access(s, t, c))
  {
    hide Shared, Moved;
    var th, s', th' := s.threads[t], Access(s, t, c), Moved(s, s.threads[t], c);
    UsesGrow(s, th, c);
    SharedThreads(s, th, c);
    if !s.ready {
      assert Holds(th.pc) ==> HeldBy(s, t);
      SeedingMoves(s, th, c);
      if !s'.ready {
        forall a | HeldBy(s', a) && !s'.first ensures s'.threads[a].pc == First3 {
          assert a != t ==> HeldBy(s, a);
        }
      }
    }
  }

  lemma SeedersComeFrom(s: Ctx, th: Thread, c: Choice)
    ensures var pc := Moved(s, th, c).pc;
            && (pc.First2? ==> th.pc.First1? && s.first)
            && (pc.First3? ==> th.pc.First2?)
  {
    match th.pc
    case First1 =>
    case First2 =>
    case _ =>
  }

  lemma AfterSeeding(s: Ctx, th: Thread, c: Choice)
    requires s.ready ==> !s.first && !th.pc.First2? && !th.pc.First3?
    ensures var s', th' := Shared(s, th, c), Moved(s, th, c);
            && (s.ready ==> s'.ready && !s'.first && !th'.pc.First2? && !th'.pc.First3?)
            && (!s.ready && s'.ready ==> th.pc.First3? && !th'.pc.First2? && !th'.pc.First3?)
  {
    hide Shared, Moved;
    UsesGrow(s, th, c);
    SeedersComeFrom(s, th, c);
  }

  lemma AccessSeededOnce(s: Ctx, t: nat, c: Choice)
    requires Exclusive(s) && Seeding(s) && SeededOnce(s) && t in s.threads
    ensures SeededOnce(Access(s, t, c))
  {
    hide Shared, Moved;
    var th, s', th' := s.threads[t], Access(s, t, c), Moved(s, s.threads[t], c);
    AfterSeeding(s, th, c);
    UsesGrow(s, th, c);
    SharedThreads(s, th, c);
    if !s.ready && s'.ready {
      assert HeldBy(s, t);
      forall a | a in s'.threads ensures !s'.threads[a].pc.First2? && !s'.threads[a].pc.First3? {
        assert a != t ==> !HeldBy(s, a);
      }
    }
  }

  // ------------------------------------------------------ the postponed ones are served

  lemma ServedSnoc(uses: seq<Use>, u: Use)
    ensures Served(uses + [u]) == Served(uses) + if u.late then [u.req] else []
  {
    assert (uses + [u])[..|uses|] == uses;
  }

  /** What an access does to the queue, to what is in hand and to what was accepted. */
  lemma QueueMoves(s: Ctx, th: Thread, c: Choice)
    ensures var s' := Shared(s, th, c);
            && (!th.pc.Post0? && !th.pc.Work0? ==> s'.queue == s.queue)
            && (th.pc.Work0? ==> if s.queue == [] then s' == s else s'.queue == s.queue[1..] && s'.hand == [s.queue[0]])
            && (!th.pc.Work0? && !(th.pc.Tail1? && th.worker) ==> s'.hand == s.hand)
            && (th.pc.Tail1? && th.worker ==> s'.hand == [])
            && (th.pc.Post0? ==> (s'.queue == s.queue && s'.accepted == s.accepted)
                                 || (s'.queue == s.queue + [th.req] && s'.accepted == s.accepted + [th.req]))
            && (!th.pc.Post0? ==> s'.accepted == s.accepted)
  {
    match th.pc
    case Post0 =>
    case Work0 =>
    case Tail1 =>
    case _ =>
  }

  lemma HandMoves(s: Ctx, th: Thread, c: Choice)
    requires th.worker ==> !th.pc.Give1?
    ensures var th' := Moved(s, th, c);
            && th'.worker == th.worker
            && (InHand(th') <==> (th.worker && th.pc.Tail0?) || (th.worker && th.pc.Work0? && s.queue != []))
            && (th.worker && th.pc.Tail0? ==> th'.req == th.req)
            && (th.pc.Work0? && s.queue != [] ==> th'.req == s.queue[0])
  {
  }

  lemma HolderHands(s: Ctx, t: nat)
    requires Exclusive(s) && Hands(s) && HeldBy(s, t)
    ensures s.hand != [] <==> InHand(s.threads[t])
    ensures s.hand != [] ==> s.hand == [s.threads[t].req]
  {
    if s.hand != [] {
      var a :| a in s.threads && InHand(s.threads[a]) && s.hand == [s.threads[a].req];
      assert HeldBy(s, a);
    }
  }

  lemma AccessFifo(s: Ctx, t: nat, c: Choice)
    requires Exclusive(s) && Hands(s) && Fifo(s) && t in s.threads
    ensures Fifo(Access(s, t, c))
  {
    hide Shared, Moved, Exclusive, Hands;
    var th, s' := s.threads[t], Shared(s, s.threads[t], c);
    QueueMoves(s, th, c);
    UsesGrow(s, th, c);
    if th.pc.Tail1? {
      assert HeldBy(s, t);
      HolderHands(s, t);
      ServedSnoc(s.uses, Use(th.req, th.giv, c.err, c.value, th.worker));
      assert Served(s.uses) + [] == Served(s.uses);
      assert Served(s.uses) + [th.req] + [] == Served(s.uses) + [th.req];
    } else if th.pc.Work0? {
      assert HeldBy(s, t);
      HolderHands(s, t);
      assert s.queue != [] ==> Served(s.uses) + [] + s.queue == Served(s.uses) + [s.queue[0]] + s.queue[1..];
    } else if th.pc.Post0? {
      assert Served(s.uses) + s.hand + (s.queue + [th.req]) == Served(s.uses) + s.hand + s.queue + [th.req];
    }
  }

  lemma AccessHands(s: Ctx, t: nat, c: Choice)
    requires Exclusive(s) && Hands(s) && AllExplained(s) && t in s.threads
    ensures Hands(Access(s, t, c))
  {
    assert s.threads[t].worker ==> !s.threads[t].pc.Give1? by {
      assert Explained(s, s.threads[t]);
    }
    hide Shared, Moved, AllExplained;
    var th, s', th' := s.threads[t], Access(s, t, c), Moved(s, s.threads[t], c);
    SharedThreads(s, th, c);
    QueueMoves(s, th, c);
    HandMoves(s, th, c);
    if HeldBy(s, t) {
      HolderHands(s, t);
      forall a | a in s'.threads && InHand(s'.threads[a]) ensures a == t {
        assert a != t ==> HeldBy(s, a);
      }
      assert InHand(th') ==> t in s'.threads && InHand(s'.threads[t]);
    } else {
      assert !th.pc.Work0? && !th.pc.Tail0? && !th.pc.Tail1?;
      if s.hand != [] {
        var a :| a in s.threads && InHand(s.threads[a]) && s.hand == [s.threads[a].req];
        assert a != t;
        assert a in s'.threads && InHand(s'.threads[a]);
      }
    }
  }

  /** How the thread that moves goes on being explained. */
  lemma MovedExplained(s: Ctx, th: Thread, c: Choice)
    requires Explained(s, th) && OwnResult(s, th) && (th.pc == First3 ==> !s.ready) && (th.pc == Sched0 ==> s.err == th.err)
    requires th.pc.First1? && !s.first ==> s.ready
    ensures Explained(Shared(s, th, c), Moved(s, th, c))
  {
  }

  lemma AccessExplained(s: Ctx, t: nat, c: Choice)
    requires AllExplained(s) && Results(s) && IvRight(s) && Seeding(s) && SeededOnce(s) && t in s.threads
    ensures AllExplained(Access(s, t, c))
  {
    hide Shared, Moved, Explained, OwnerKnows, OwnResult, LastIv;
    var th, s' := s.threads[t], Access(s, t, c);
    SharedThreads(s, th, c);
    SeedingFacts(s, t);
    MovedExplained(s, th, c);
    UsesGrow(s, th, c);
    forall a | a in s'.threads ensures Explained(s', s'.threads[a]) {
      if a == t {
        ExplainedFrame(Shared(s, th, c), s', s'.threads[a]);
      } else if th.pc == First3 {
        ExplainedBefore(s, s', a);
      } else {
        ExplainedFrame(s, s', s'.threads[a]);
      }
    }
  }

  lemma MovedTicket(s: Ctx, th: Thread, c: Choice)
    requires Ticketed(s, th) && (th.pc == Post0 ==> th.qlen < 0 && !th.worker)
    ensures var s', th' := Shared(s, th, c), Moved(s, th, c);
            && Ticketed(s', th')
            && if th.pc == Post0 && !(|s.queue| >= 100 && !th.backlog)
               then s'.accepted == s.accepted + [th.req] && th'.ticket == |s.accepted|
               else s'.accepted == s.accepted && (th'.ticket == th.ticket || (th'.ticket < 0 && th.ticket < 0))
    ensures th.pc == Post0 ==> th.ticket < 0
  {
  }

  lemma AccessTickets(s: Ctx, t: nat, c: Choice)
    requires Tickets(s) && AllExplained(s) && t in s.threads
    ensures Tickets(Access(s, t, c))
  {
    var th, s' := s.threads[t], Access(s, t, c);
    assert Explained(s, th) && Ticketed(s, th);
    hide Shared, Moved, Explained, AllExplained, Ticketed;
    SharedThreads(s, th, c);
    PostedOnce(s, th);
    MovedTicket(s, th, c);
    forall a | a in s'.threads ensures Ticketed(s', s'.threads[a]) {
      TicketStays(s, s', if a == t then Moved(s, th, c) else s.threads[a], Shared(s, th, c), a == t);
    }
    TicketsMove(s, s', t, Moved(s, th, c));
  }

  lemma TicketsMove(s: Ctx, s': Ctx, t: nat, th: Thread)
    requires Tickets(s) && t in s.threads && s'.threads == s.threads[t := th]
    requires forall a | a in s'.threads :: Ticketed(s', s'.threads[a])
    requires || (|s'.accepted| == |s.accepted| + 1 && s.threads[t].ticket < 0 && th.ticket == |s.accepted|)
             || (|s'.accepted| == |s.accepted| && (th.ticket == s.threads[t].ticket || (th.ticket < 0 && s.threads[t].ticket < 0)))
    ensures Tickets(s')
  {
    hide Ticketed;
    forall a, k: int | 0 <= k < |s.accepted| ensures HasTicket(s', a, k) <==> HasTicket(s, a, k) {}
    forall a ensures HasTicket(s', a, |s.accepted|) <==> a == t && th.ticket == |s.accepted| {
      HadTicket(s, a, |s.accepted|);
    }
    forall k | 0 <= k < |s'.accepted| ensures Taken(s', k) {
      if k < |s.accepted| {
        assert Taken(s, k);
        var a :| HasTicket(s, a, k);
        assert HasTicket(s', a, k);
      } else {
        assert HasTicket(s', t, k);
      }
    }
  }

  lemma PostedOnce(s: Ctx, th: Thread)
    requires Explained(s, th)
    ensures th.pc == Post0 ==> th.qlen < 0 && !th.worker
  {
  }

  lemma HadTicket(s: Ctx, t: nat, k: int)
    requires Tickets(s)
    ensures HasTicket(s, t, k) && k >= 0 ==> k < |s.accepted| && s.threads[t].pc != Post0
  {
    assert t in s.threads ==> Ticketed(s, s.threads[t]);
  }

  lemma TicketStays(s: Ctx, s': Ctx, th: Thread, m: Ctx, moved: bool)
    requires if moved then Ticketed(m, th) else Ticketed(s, th)
    requires s'.accepted == m.accepted && s.accepted <= m.accepted
    ensures Ticketed(s', th)
  {
  }

  lemma SinceMoves(s: Ctx, th: Thread, c: Choice)
    ensures Moved(s, th, c).since == th.since && Moved(s, th, c).worker == th.worker
  {
  }

  lemma WaitMoves(s: Ctx, th: Thread, c: Choice)
    ensures var th' := Moved(s, th, c);
            && (th'.pc.Tail0? ==> th.pc.Work0? || (th.pc.Give1? && s.queue == []))
            && (th'.pc.Tail1? ==> th.pc.Tail0?)
            && th'.slot == if th.pc.Tail1? then |s.uses| else th.slot
  {
    match th.pc
    case Give1 =>
    case Tail0 =>
    case Tail1 =>
    case Work0 =>
    case _ =>
  }

  /** What was waited for stays done. */
  lemma WaitedStays(s: Ctx, s': Ctx, th: Thread, th': Thread)
    requires Waited(s, th) && th'.since == th.since && th'.worker == th.worker
    requires |s.accepted| <= |s'.accepted| && (s'.uses == s.uses || exists u :: s'.uses == s.uses + [u])
    requires th'.pc.Tail0? || th'.pc.Tail1? ==> th.worker || th.since <= |Served(s.uses)|
    requires th'.slot == th.slot || (th'.slot == |s.uses| && th.pc.Tail1?)
    ensures Waited(s', th')
  {
    if s'.uses != s.uses {
      var u :| s'.uses == s.uses + [u];
      ServedSnoc(s.uses, u);
    }
    assert s'.uses[..|s.uses|] == s.uses;
    assert 0 <= th.slot <= |s.uses| ==> s'.uses[..th.slot] == s.uses[..th.slot];
  }

  lemma AccessWaited(s: Ctx, t: nat, c: Choice)
    requires Exclusive(s) && Hands(s) && Fifo(s) && AllExplained(s) && AllWaited(s) && t in s.threads
    ensures AllWaited(Access(s, t, c))
  {
    var th, s' := s.threads[t], Access(s, t, c);
    assert Explained(s, th) && Waited(s, th);
    if th.pc.Give1? && s.queue == [] {
      assert HeldBy(s, t);
      HolderHands(s, t);
      assert s.accepted == Served(s.uses) + [] + [] == Served(s.uses);
    }
    NotWork0(s, th);
    hide Shared, Moved, Waited, Explained, AllExplained, Exclusive, Hands, Fifo;
    SinceMoves(s, th, c);
    WaitMoves(s, th, c);
    QueueMoves(s, th, c);
    UsesGrow(s, th, c);
    SharedThreads(s, th, c);
    forall a | a in s'.threads ensures Waited(s', s'.threads[a]) {
      NeedsWait(s, s.threads[a]);
      WaitedStays(s, s', s.threads[a], s'.threads[a]);
    }
  }

  lemma NotWork0(s: Ctx, th: Thread)
    requires Explained(s, th)
    ensures th.pc.Work0? ==> th.worker
  {
  }

  lemma NeedsWait(s: Ctx, th: Thread)
    requires Waited(s, th)
    ensures !th.worker ==> th.since <= |s.accepted| && (th.pc.Tail0? || th.pc.Tail1? ==> th.since <= |Served(s.uses)|)
  {
  }

  lemma SeedingFacts(s: Ctx, t: nat)
    requires Seeding(s) && SeededOnce(s) && IvRight(s) && t in s.threads
    ensures s.threads[t].pc == First3 ==> !s.ready
    ensures s.threads[t].pc == Sched0 ==> s.err == s.threads[t].err
    ensures s.threads[t].pc == First1 && !s.first ==> s.ready
  {
    if s.threads[t].pc == Sched0 {
      assert HeldBy(s, t) && OwnerKnows(s, s.threads[t]);
    }
    if s.threads[t].pc == First1 {
      assert HeldBy(s, t);
    }
  }

  lemma ExplainedFrame(s: Ctx, s': Ctx, th: Thread)
    requires Explained(s, th) && s'.seedErr == s.seedErr && s'.ready == s.ready
    ensures Explained(s', th)
  {
  }

  /** Before the random source was asked nobody has given up. */
  lemma ExplainedBefore(s: Ctx, s': Ctx, a: nat)
    requires !s.ready && a in s.threads && Explained(s, s.threads[a]) && a in s'.threads && s'.threads[a] == s.threads[a]
    ensures Explained(s', s'.threads[a])
  {
  }

  lemma FailsIff(s: Ctx, th: Thread, c: Choice)
    ensures Moved(s, th, c).pc.First5? ==> th.pc.First3? && c.err != 0
  {
  }

  lemma AccessFailed(s: Ctx, t: nat, c: Choice)
    requires Failed(s) && Seeding(s) && SeededOnce(s) && t in s.threads
    ensures Failed(Access(s, t, c))
  {
    hide Shared, Moved, Holds;
    var th := s.threads[t];
    FailsIff(s, th, c);
    UsesGrow(s, th, c);
    SharedThreads(s, th, c);
  }

  lemma AccessCared(s: Ctx, t: nat, c: Choice)
    requires Inv(s) && t in s.threads && Access(s, t, c).seedErr == 0
    ensures NotStranded(Access(s, t, c))
  {
    hide Exclusive, NotStranded, Chained, IvRight, Results, Shared, Moved;
    var th := s.threads[t];
    UsesGrow(s, th, c);
    assert s.seedErr == 0;
    AccessNotStranded(s, t, c);
  }

  // -------------------------------------------------------------------------- runs

  lemma RunKeepsInv(s: Ctx, t: nat, c: Choice)
    requires Inv(s) && t in s.threads
    ensures Inv(Access(s, t, c))
  {
    AccessCaredIf(s, t, c);
    hide Exclusive, NotStranded, Seeding, SeededOnce, Failed, Chained, IvRight, Results;
    hide Shared, Moved, Fifo, Hands, AllExplained, Tickets, AllWaited;
    AccessExclusive(s, t, c);
    AccessTickets(s, t, c);
    AccessWaited(s, t, c);
    AccessFifo(s, t, c);
    AccessHands(s, t, c);
    AccessExplained(s, t, c);
    AccessSeeding(s, t, c);
    AccessSeededOnce(s, t, c);
    AccessFailed(s, t, c);
    AccessChained(s, t, c);
    AccessIv(s, t, c);
    AccessResults(s, t, c);
  }

  lemma AccessCaredIf(s: Ctx, t: nat, c: Choice)
    requires Inv(s) && t in s.threads
    ensures Access(s, t, c).seedErr == 0 ==> NotStranded(Access(s, t, c))
  {
    hide Inv, NotStranded, Access;
    if Access(s, t, c).seedErr == 0 {
      AccessCared(s, t, c);
    }
  }

  lemma CallSeeding(s: Ctx, t: nat, req: nat, backlog: bool)
    requires Seeding(s) && SeededOnce(s) && t !in s.threads
    ensures Seeding(Apply(s, Call(t, req, backlog))) && SeededOnce(Apply(s, Call(t, req, backlog)))
  {
    var s' := Apply(s, Call(t, req, backlog));
    forall a ensures HeldBy(s', a) <==> HeldBy(s, a) {}
  }

  lemma CallIv(s: Ctx, t: nat, req: nat, backlog: bool)
    requires IvRight(s) && Chained(s) && Results(s) && t !in s.threads
    ensures var s' := Apply(s, Call(t, req, backlog)); IvRight(s') && Chained(s') && Results(s') && (Failed(s) ==> Failed(s'))
  {
    hide LastIv, OwnerKnows;
    var s' := Apply(s, Call(t, req, backlog));
    forall a | HeldBy(s', a) ensures OwnerKnows(s', s'.threads[a]) {
      assert HeldBy(s, a);
      OwnerKnowsFrame(s, s', s.threads[a]);
    }
    forall a | a in s'.threads ensures OwnResult(s', s'.threads[a]) {
      assert a != t ==> OwnResult(s, s.threads[a]);
    }
  }

  /** A new caller changes nothing that is shared. */
  lemma CallKeepsInv(s: Ctx, t: nat, req: nat, backlog: bool)
    requires Inv(s) && t !in s.threads
    ensures Inv(Apply(s, Call(t, req, backlog)))
  {
    hide Seeding, SeededOnce, IvRight, Chained, Results, Failed, Fifo, Hands, AllExplained, Tickets, AllWaited;
    NewcomerExplained(s, t, Apply(s, Call(t, req, backlog)));
    CallSeeding(s, t, req, backlog);
    CallIv(s, t, req, backlog);
    var s' := Apply(s, Call(t, req, backlog));
    forall a ensures HeldBy(s', a) <==> HeldBy(s, a) {}
    forall a | HandshakeBy(s, a) ensures HandshakeBy(s', a) {}
  }

  /** A thread that has just come. */
  lemma NewcomerExplained(s: Ctx, t: nat, s': Ctx)
    requires Fifo(s) && Hands(s) && AllExplained(s) && Tickets(s) && AllWaited(s) && t !in s.threads && t in s'.threads
    requires s'.threads == s.threads[t := s'.threads[t]] && !InHand(s'.threads[t])
    requires s'.queue == s.queue && s'.hand == s.hand && s'.accepted == s.accepted && s'.uses == s.uses
    requires s'.seedErr == s.seedErr && s'.ready == s.ready && Explained(s', s'.threads[t])
    requires s'.threads[t].ticket == -1 && s'.threads[t].qlen == -1 && Waited(s', s'.threads[t])
    ensures Fifo(s') && Hands(s') && AllExplained(s') && Tickets(s') && AllWaited(s')
  {
    hide Explained;
    forall a, k: int | k >= 0 ensures HasTicket(s', a, k) <==> HasTicket(s, a, k) {}
    forall k | 0 <= k < |s'.accepted| ensures Taken(s', k) {
      assert Taken(s, k);
      var a :| HasTicket(s, a, k);
      assert HasTicket(s', a, k);
    }
    forall a | a in s'.threads ensures Explained(s', s'.threads[a]) && Waited(s', s'.threads[a]) {
      if a != t {
        assert Waited(s, s.threads[a]);
        ExplainedFrame(s, s', s.threads[a]);
      }
    }
    if s.hand != [] {
      var a :| a in s.threads && InHand(s.threads[a]) && s.hand == [s.threads[a].req];
      assert a in s'.threads && InHand(s'.threads[a]);
    }
  }

  /** The work item takes the bit over from whoever scheduled it. */
  lemma StartKeepsInv(s: Ctx, t: nat)
    requires Inv(s) && Enabled(s, Start(t))
    ensures Inv(Apply(s, Start(t)))
  {
    hide LastIv, Exclusive, Fifo, Hands, AllExplained, Tickets, AllWaited;
    var s' := Apply(s, Start(t));
    NewcomerExplained(s, t, s');
    HolderFacts(s, t);
    AcquireExclusive(s, s', t, s'.threads[t]);
    forall a | HandshakeBy(s, a) ensures HandshakeBy(s', a) {}
    forall a | HeldBy(s', a) ensures OwnerKnows(s', s'.threads[a]) {
      HolderFacts(s, a);
    }
    forall a | a in s'.threads ensures OwnResult(s', s'.threads[a]) {
      assert a != t ==> OwnResult(s, s.threads[a]);
    }
  }

  /** A context as async_chainiv_init leaves it. */
  ghost predicate Fresh(s: Ctx) {
    !s.inuse && s.queue == [] && !s.pending && s.first && s.threads == map[] && !s.ready
    && s.seedErr == 0 && s.uses == [] && s.accepted == [] && s.hand == []
  }

  ghost predicate IsRun(states: seq<Ctx>, steps: seq<Step>) {
    && |states| == |steps| + 1
    && Fresh(states[0])
    && forall i | 0 <= i < |steps| :: Enabled(states[i], steps[i]) && states[i + 1] == Apply(states[i], steps[i])
  }

  lemma {:induction false} RunInv(states: seq<Ctx>, steps: seq<Step>, i: nat)
    requires IsRun(states, steps) && i < |states|
    ensures Inv(states[i])
  {
    hide Inv, Access;
    if i == 0 {
      FreshInv(states[0]);
    } else {
      RunInv(states, steps, i - 1);
      assert Enabled(states[i - 1], steps[i - 1]);
      match steps[i - 1]
      case Call(t, req, backlog) => CallKeepsInv(states[i - 1], t, req, backlog);
      case Start(t) => StartKeepsInv(states[i - 1], t);
      case Run(t, c) => RunKeepsInv(states[i - 1], t, c);
    }
  }

  lemma FreshInv(s: Ctx)
    requires Fresh(s)
    ensures Inv(s)
  {
  }

  /**
   In every interleaving: at most one thread is ever between taking and releasing the bit, so at
   most one is about to touch ctx->iv; and queue_work always queues.  Unless the random source failed,
   a queued request has someone responsible for it - an owner of the bit, the pending work item, or a
   thread in the handshake.
   */
  lemma ProtocolSafety(states: seq<Ctx>, steps: seq<Step>, i: nat)
    requires IsRun(states, steps) && i < |states|
    ensures var s := states[i];
            && (forall a, b | HeldBy(s, a) && HeldBy(s, b) :: a == b)
            && (forall a | a in s.threads && s.threads[a].pc == Sched5 :: !s.pending)
            && (s.queue != [] && s.seedErr == 0 ==>
                  s.pending || (exists a :: HeldBy(s, a)) || (exists a :: HandshakeBy(s, a)))
  {
    RunInv(states, steps, i);
    var s := states[i];
    forall a | a in s.threads && s.threads[a].pc == Sched5 ensures !s.pending {
      assert HeldBy(s, a);
    }
  }

  /**
   In every run each IV handed out is the one the last successful encryption before it left behind; the
   first is what the random source left in ctx->iv, and it was asked exactly once, even if it failed.
   */
  lemma IvsAreChained(states: seq<Ctx>, steps: seq<Step>, i: nat, k: nat)
    requires IsRun(states, steps) && i < |states| && k < |states[i].uses|
    ensures states[i].uses[k].iv == LastIv(states[i].seed, states[i].uses[..k]) && states[i].ready
    ensures forall j | i <= j < |states| :: states[j].seed == states[i].seed && states[j].seedErr == states[i].seedErr
  {
    RunInv(states, steps, i);
    forall j | i <= j < |states| ensures states[j].seed == states[i].seed && states[j].seedErr == states[i].seedErr {
      SeedStays(states, steps, i, j);
    }
  }

  lemma {:induction false} SeedStays(states: seq<Ctx>, steps: seq<Step>, i: nat, j: nat)
    requires IsRun(states, steps) && i <= j < |states| && states[i].ready
    ensures states[j].seed == states[i].seed && states[j].seedErr == states[i].seedErr && states[j].ready
  {
    hide Apply, Inv;
    if i < j {
      SeedStays(states, steps, i, j - 1);
      RunInv(states, steps, j - 1);
      StepSeedStays(states[j - 1], steps[j - 1]);
    }
  }

  lemma StepSeedStays(s: Ctx, step: Step)
    requires Inv(s) && s.ready && Enabled(s, step)
    ensures var r := Apply(s, step); r.seed == s.seed && r.seedErr == s.seedErr && r.ready
  {
    hide Shared, Moved, Exclusive, NotStranded, Seeding, Failed, Chained, IvRight, Results;
    if step.Run? {
      UsesGrow(s, s.threads[step.t], step.c);
    }
  }

  /** A finished call that encrypted reports the result of its own encryption. */
  lemma CallsReturnTheirOwnResult(states: seq<Ctx>, steps: seq<Step>, i: nat, t: nat)
    requires IsRun(states, steps) && i < |states|
    requires t in states[i].threads && states[i].threads[t].pc == Done && states[i].threads[t].slot >= 0
    ensures var s, th := states[i], states[i].threads[t];
            th.slot < |s.uses| && s.uses[th.slot].req == th.req && s.uses[th.slot].err == th.err
  {
    RunInv(states, steps, i);
    assert OwnResult(states[i], states[i].threads[t]);
  }

  /** The BUG_ON in async_chainiv_exit: once all is quiet the bit is clear, and nothing is queued if seeding worked. */
  lemma QuietMeansEmpty(states: seq<Ctx>, steps: seq<Step>, i: nat)
    requires IsRun(states, steps) && i < |states|
    requires !states[i].pending && forall t | t in states[i].threads :: states[i].threads[t].pc == Done
    ensures !states[i].inuse && (states[i].seedErr == 0 ==> states[i].queue == [])
  {
    ProtocolSafety(states, steps, i);
    RunInv(states, steps, i);
    var s := states[i];
    assert forall a :: !HeldBy(s, a) && !HandshakeBy(s, a);
  }

  /**
   In every run what was postponed is, in order, what was encrypted late, then what a worker about to encrypt
   holds, then the queue; and it is the requests of the callers that were postponed, one each.
   */
  lemma PostponedInOrder(states: seq<Ctx>, steps: seq<Step>, i: nat)
    requires IsRun(states, steps) && i < |states|
    ensures var s := states[i];
            && s.accepted == Served(s.uses) + s.hand + s.queue
            && (s.hand != [] ==> exists t :: t in s.threads && InHand(s.threads[t]) && s.hand == [s.threads[t].req])
            && (forall t | t in s.threads && s.threads[t].ticket >= 0 ::
                  s.threads[t].ticket < |s.accepted| && s.accepted[s.threads[t].ticket] == s.threads[t].req)
            && (forall k | 0 <= k < |s.accepted| :: Taken(s, k))
            && (forall k, a, b | 0 <= k < |s.accepted| && HasTicket(s, a, k) && HasTicket(s, b, k) :: a == b)
  {
    hide Exclusive, Seeding, SeededOnce, Failed, Chained, IvRight, Results, NotStranded, AllExplained;
    RunInv(states, steps, i);
    var s := states[i];
    forall t | t in s.threads && s.threads[t].ticket >= 0
      ensures s.threads[t].ticket < |s.accepted| && s.accepted[s.threads[t].ticket] == s.threads[t].req
    {
      assert Ticketed(s, s.threads[t]);
    }
  }

  /**
   How a call ends: the caller has encrypted its own request and returns what that gave; or it was postponed
   and returns -EBUSY (-16) if 100 requests or more were waiting, -EINPROGRESS (-115) if not, and its request was
   taken on unless 100 were waiting and it may not be backlogged; or the random source failed for it.
   */
  lemma CallEnds(states: seq<Ctx>, steps: seq<Step>, i: nat, t: nat)
    requires IsRun(states, steps) && i < |states| && t in states[i].threads
    requires states[i].threads[t].pc == Done && !states[i].threads[t].worker
    ensures var s, th := states[i], states[i].threads[t];
            || (0 <= th.slot < |s.uses| && s.uses[th.slot].req == th.req && s.uses[th.slot].err == th.err && th.qlen < 0)
            || (th.qlen >= 100 && th.err == -16 && (th.ticket >= 0 <==> th.backlog))
            || (0 <= th.qlen < 100 && th.err == -115 && th.ticket >= 0)
            || (s.seedErr != 0 && th.err == s.seedErr)
  {
    hide Exclusive, Seeding, SeededOnce, Failed, Chained, IvRight, NotStranded, Fifo, Hands;
    RunInv(states, steps, i);
    assert Explained(states[i], states[i].threads[t]) && Ticketed(states[i], states[i].threads[t]);
    assert OwnResult(states[i], states[i].threads[t]);
  }

  /** No overtaking: a caller encrypts after every request that had been postponed when it was called. */
  lemma NoOvertaking(states: seq<Ctx>, steps: seq<Step>, i: nat, j: nat, t: nat)
    requires IsRun(states, steps) && i < j < |states| && steps[i].Call? && steps[i].t == t
    requires t in states[j].threads && states[j].threads[t].slot >= 0
    ensures var s, slot := states[j], states[j].threads[t].slot;
            slot < |s.uses| && states[i].accepted <= Served(s.uses[..slot])
  {
    SinceStays(states, steps, i, j, t);
    AcceptedGrows(states, steps, i, j);
    hide Exclusive, Seeding, SeededOnce, Failed, Chained, IvRight, NotStranded, Hands, Tickets, AllExplained;
    RunInv(states, steps, j);
    var s, th := states[j], states[j].threads[t];
    assert Waited(s, th) && OwnResult(s, th);
    ServedGrows(s.uses, th.slot);
  }

  lemma {:induction false} ServedGrows(uses: seq<Use>, k: nat)
    requires k <= |uses|
    ensures Served(uses[..k]) <= Served(uses)
  {
    if k == |uses| {
      assert uses[..k] == uses;
    } else {
      ServedGrows(uses[..|uses| - 1], k);
      assert uses[..|uses| - 1][..k] == uses[..k];
    }
  }

  lemma {:induction false} AcceptedGrows(states: seq<Ctx>, steps: seq<Step>, i: nat, j: nat)
    requires IsRun(states, steps) && i <= j < |states|
    ensures states[i].accepted <= states[j].accepted
  {
    hide Shared, Moved;
    if i < j {
      AcceptedGrows(states, steps, i, j - 1);
      var s, step := states[j - 1], steps[j - 1];
      assert Enabled(s, step) && states[j] == Apply(s, step);
      if step.Run? {
        QueueMoves(s, s.threads[step.t], step.c);
      }
    }
  }

  lemma {:induction false} SinceStays(states: seq<Ctx>, steps: seq<Step>, i: nat, j: nat, t: nat)
    requires IsRun(states, steps) && i < j < |states| && steps[i].Call? && steps[i].t == t
    ensures t in states[j].threads && !states[j].threads[t].worker && states[j].threads[t].since == |states[i].accepted|
  {
    hide Shared, Moved;
    assert Enabled(states[i], steps[i]);
    if i + 1 < j {
      SinceStays(states, steps, i, j - 1, t);
      var s, step := states[j - 1], steps[j - 1];
      assert Enabled(s, step) && states[j] == Apply(s, step);
      if step.Run? {
        SinceMoves(s, s.threads[step.t], step.c);
        SharedThreads(s, s.threads[step.t], step.c);
      }
    }
  }

  /** Once all is quiet every request that was taken on has been encrypted late, in order, if seeding worked. */
  lemma QuietMeansServed(states: seq<Ctx>, steps: seq<Step>, i: nat)
    requires IsRun(states, steps) && i < |states|
    requires !states[i].pending && forall t | t in states[i].threads :: states[i].threads[t].pc == Done
    ensures states[i].seedErr == 0 ==> states[i].accepted == Served(states[i].uses)
    ensures states[i].accepted == Served(states[i].uses) + states[i].queue
  {
    QuietMeansEmpty(states, steps, i);
    PostponedInOrder(states, steps, i);
    var s := states[i];
    assert Served(s.uses) + [] == Served(s.uses);
  }

  // ----------------------------------------------------------- when seeding fails

  /** A caller that leaves because seeding failed strands the queue unless somebody else looks after it. */
  lemma FailedSeedStrands(s: Ctx, t: nat, c: Choice)
    requires Exclusive(s) && t in s.threads && s.threads[t].pc == First5
    ensures NotStranded(Access(s, t, c)) <==> s.queue == [] || exists a :: a != t && HandshakeBy(s, a)
  {
    var s' := Access(s, t, c);
    forall a ensures HandshakeBy(s', a) <==> a != t && HandshakeBy(s, a) {}
  }

  lemma CallOrStartCared(s: Ctx, step: Step)
    requires Inv(s) && NotStranded(s) && Enabled(s, step) && !step.Run?
    ensures NotStranded(Apply(s, step))
  {
    var s' := Apply(s, step);
    forall a | HandshakeBy(s, a) ensures HandshakeBy(s', a) {}
  }

  /**
   The harm is done at that one step and lasts until the bit is next taken: from a state in which nobody
   is about to leave so, a queue that is cared for, as it is whenever the bit is set, is cared for ever after.
   */
  lemma {:induction false} CaredForEver(states: seq<Ctx>, steps: seq<Step>, i: nat, j: nat)
    requires IsRun(states, steps) && i <= j < |states| && states[i].ready && NotStranded(states[i])
    requires forall t | t in states[i].threads :: states[i].threads[t].pc != First5
    ensures NotStranded(states[j]) && states[j].ready
    ensures forall t | t in states[j].threads :: states[j].threads[t].pc != First5
  {
    hide Apply, Inv, NotStranded;
    if i < j {
      CaredForEver(states, steps, i, j - 1);
      RunInv(states, steps, j - 1);
      StepCared(states[j - 1], steps[j - 1]);
    }
  }

  lemma StepCared(s: Ctx, step: Step)
    requires Inv(s) && Enabled(s, step) && s.ready && NotStranded(s)
    requires forall t | t in s.threads :: s.threads[t].pc != First5
    ensures var s' := Apply(s, step);
            NotStranded(s') && s'.ready && forall t | t in s'.threads :: s'.threads[t].pc != First5
  {
    hide Shared, Moved, NotStranded, Exclusive, IvRight, Chained, Results;
    if step.Run? {
      var th := s.threads[step.t];
      AccessNotStranded(s, step.t, step.c);
      UsesGrow(s, th, step.c);
      FailsIff(s, th, step.c);
      SharedThreads(s, th, step.c);
    } else {
      CallOrStartCared(s, step);
    }
  }

  /** A context with two callers, none of which has encrypted anything. */
  ghost function Two(pc1: Pc, err1: int, pc2: Pc, err2: int, inuse: bool, first: bool, queue: seq<nat>): Ctx {
    var one := Thread(pc1, 1, true, 0, 0, err1, false, -1, false, -1, -1, 0);
    var two := Thread(pc2, 2, true, 0, 0, err2, false, -1, false, if queue == [] then -1 else 0, if queue == [] then -1 else 0, 0);
    Ctx(inuse, queue, 0, 0, false, first, map[1 := one, 2 := two], false, 0, 0, [], queue, [])
  }

  /** A run goes on by one access: one thread of the two moves, the other stays. */
  lemma TwoMoves(states: seq<Ctx>, steps: seq<Step>, s: Ctx, t: nat, c: Choice, s': Ctx)
    requires IsRun(states, steps) && s == states[|steps|]
    requires s.threads.Keys == {1, 2} && (t == 1 || t == 2) && s'.threads.Keys == {1, 2}
    requires s'.threads[3 - t] == s.threads[3 - t] && s'.threads[t] == Moved(s, s.threads[t], c)
    requires s' == Shared(s, s.threads[t], c).(threads := s'.threads)
    ensures IsRun(states + [s'], steps + [Run(t, c)]) && (states + [s'])[|steps| + 1] == s'
  {
    hide Moved, Shared;
    SharedThreads(s, s.threads[t], c);
    assert s'.threads == s.threads[t := Moved(s, s.threads[t], c)];
  }

  lemma TwoCallers() returns (states: seq<Ctx>, steps: seq<Step>)
    ensures IsRun(states, steps) && |states| == |steps| + 1 && states[|steps|] == Two(First0, 0, First0, 0, false, true, [])
  {
    var s0 := Ctx(false, [], 0, 0, false, true, map[], false, 0, 0, [], [], []);
    var s1 := Apply(s0, Call(1, 1, true));
    var s2 := Two(First0, 0, First0, 0, false, true, []);
    assert Apply(s1, Call(2, 2, true)) == s2;
    states, steps := [s0, s1, s2], [Call(1, 1, true), Call(2, 2, true)];
  }

  lemma SeedingCaller() returns (states: seq<Ctx>, steps: seq<Step>)
    ensures IsRun(states, steps) && |states| == |steps| + 1 && states[|steps|] == Two(First3, 0, First0, 0, true, false, [])
  {
    hide IsRun;
    var ok := Choice(0, 0);
    states, steps := TwoCallers();
    var s3 := Two(First1, 0, First0, 0, true, true, []);
    TwoMoves(states, steps, states[|steps|], 1, ok, s3);
    states, steps := states + [s3], steps + [Run(1, ok)];
    var s4 := Two(First2, 0, First0, 0, true, true, []);
    TwoMoves(states, steps, s3, 1, ok, s4);
    states, steps := states + [s4], steps + [Run(1, ok)];
    var s5 := Two(First3, 0, First0, 0, true, false, []);
    TwoMoves(states, steps, s4, 1, ok, s5);
    states, steps := states + [s5], steps + [Run(1, ok)];
  }

  lemma PostponedCaller() returns (states: seq<Ctx>, steps: seq<Step>)
    ensures IsRun(states, steps) && |states| == |steps| + 1 && states[|steps|] == Two(First3, 0, Done, EINPROGRESS, true, false, [2])
  {
    hide IsRun;
    var ok := Choice(0, 0);
    states, steps := SeedingCaller();
    var s6 := Two(First3, 0, Give0, 0, true, false, []);
    TwoMoves(states, steps, states[|steps|], 2, ok, s6);
    states, steps := states + [s6], steps + [Run(2, ok)];
    var s7 := Two(First3, 0, Post0, 0, true, false, []);
    TwoMoves(states, steps, s6, 2, ok, s7);
    states, steps := states + [s7], steps + [Run(2, ok)];
    var s8 := Two(First3, 0, Post1, EINPROGRESS, true, false, [2]);
    TwoMoves(states, steps, s7, 2, ok, s8);
    states, steps := states + [s8], steps + [Run(2, ok)];
    var s9 := Two(First3, 0, Done, EINPROGRESS, true, false, [2]);
    TwoMoves(states, steps, s8, 2, ok, s9);
    states, steps := states + [s9], steps + [Run(2, ok)];
  }

  lemma LeavingCaller() returns (states: seq<Ctx>, steps: seq<Step>)
    ensures IsRun(states, steps) && |states| == |steps| + 1
    ensures states[|steps|] == Two(First5, -5, Done, EINPROGRESS, true, false, [2]).(ready := true, seedErr := -5)
  {
    hide IsRun;
    states, steps := PostponedCaller();
    var s10 := Two(First5, -5, Done, EINPROGRESS, true, false, [2]).(ready := true, seedErr := -5);
    TwoMoves(states, steps, states[|steps|], 1, Choice(-5, 0), s10);
    states, steps := states + [s10], steps + [Run(1, Choice(-5, 0))];
  }

  /**
   And it happens: the first caller fails to seed while a second one is postponed behind it.  All
   threads finish, nothing is pending, and the second request stays in the queue.
   */
  lemma FailedSeedRun() returns (states: seq<Ctx>, steps: seq<Step>)
    ensures IsRun(states, steps)
    ensures var s := states[|steps|];
            && s.queue == [2] && !s.pending && !s.inuse
            && forall t | t in s.threads :: s.threads[t].pc == Done
  {
    hide IsRun;
    states, steps := LeavingCaller();
    var s10 := states[|steps|];
    var s11 := Two(Done, -5, Done, EINPROGRESS, false, false, [2]).(ready := true, seedErr := -5);
    TwoMoves(states, steps, s10, 1, Choice(0, 0), s11);
    states, steps := states + [s11], steps + [Run(1, Choice(0, 0))];
  }

  /**
   And the next caller encrypts all the same, with whatever the failed random source left in ctx->iv,
   because givencrypt was switched before it was asked.
   */
  lemma FailedSeedIv(left: int) returns (states: seq<Ctx>, steps: seq<Step>)
    ensures IsRun(states, steps)
    ensures var s := states[|steps|]; s.seedErr == -5 && |s.uses| == 1 && s.uses[0].req == 2 && s.uses[0].iv == left
  {
    hide IsRun;
    var ok := Choice(0, 0);
    states, steps := SecondGives(left);
    var s9 := states[|steps|];
    var s10 := TwoAfter(Tail0, true, left);
    TwoMoves(states, steps, s9, 2, ok, s10);
    states, steps := states + [s10], steps + [Run(2, ok)];
    var two := s10.threads[2];
    var s11 := s10.(threads := s10.threads[2 := two.(pc := Tail1, giv := left)]);
    TwoMoves(states, steps, s10, 2, ok, s11);
    states, steps := states + [s11], steps + [Run(2, ok)];
    var done := two.(pc := Tail2, giv := left, slot := 0);
    var s12 := s11.(threads := s11.threads[2 := done], uses := [Use(2, left, 0, 0, false)]);
    TwoMoves(states, steps, s11, 2, ok, s12);
    states, steps := states + [s12], steps + [Run(2, ok)];
  }

  lemma SecondGives(left: int) returns (states: seq<Ctx>, steps: seq<Step>)
    ensures IsRun(states, steps) && |states| == |steps| + 1 && states[|steps|] == TwoAfter(Give1, true, left)
  {
    hide IsRun;
    var ok := Choice(0, 0);
    states, steps := FailedAlone(left);
    var s5 := states[|steps|];
    var s6 := TwoAfter(First1, true, left);
    TwoMoves(states, steps, s5, 2, ok, s6);
    states, steps := states + [s6], steps + [Run(2, ok)];
    var s7 := TwoAfter(First4, true, left);
    TwoMoves(states, steps, s6, 2, ok, s7);
    states, steps := states + [s7], steps + [Run(2, ok)];
    var two := s7.threads[2];
    var s8 := s7.(inuse := false, threads := s7.threads[2 := two.(pc := Give0, owes := true)]);
    TwoMoves(states, steps, s7, 2, ok, s8);
    states, steps := states + [s8], steps + [Run(2, ok)];
    var s9 := TwoAfter(Give1, true, left);
    TwoMoves(states, steps, s8, 2, ok, s9);
    states, steps := states + [s9], steps + [Run(2, ok)];
  }

  /** The first caller has failed and left, the second stands at pc. */
  ghost function TwoAfter(pc: Pc, inuse: bool, left: int): Ctx {
    Two(Done, -5, pc, 0, inuse, false, []).(iv := left, ready := true, seed := left, seedErr := -5)
  }

  lemma FailedAlone(left: int) returns (states: seq<Ctx>, steps: seq<Step>)
    ensures IsRun(states, steps) && |states| == |steps| + 1 && states[|steps|] == TwoAfter(First0, false, left)
  {
    hide IsRun;
    states, steps := SeedingCaller();
    var bad := Choice(-5, left);
    var s3 := Two(First5, -5, First0, 0, true, false, []).(iv := left, ready := true, seed := left, seedErr := -5);
    TwoMoves(states, steps, states[|steps|], 1, bad, s3);
    states, steps := states + [s3], steps + [Run(1, bad)];
    var s4 := TwoAfter(First0, false, left);
    TwoMoves(states, steps, s3, 1, bad, s4);
    states, steps := states + [s4], steps + [Run(1, bad)];
  }
}
