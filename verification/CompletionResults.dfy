/** What error each bio of a request ends with, over any number of partial completions, each with its own error. */
module CompletionResults {
  import opened Completion

  /** One call of __end_that_request_first: so many bytes are done, with this error. */
  datatype Call = Call(n: nat, error: int)

  function Total(calls: seq<Call>): nat {
    if calls == [] then 0 else Total(calls[..|calls| - 1]) + calls[|calls| - 1].n
  }

  /** The chain the calls leave. */
  function After(bios: seq<Bio>, calls: seq<Call>): (r: seq<Bio>)
    requires AllSized(bios)
    ensures AllSized(r)
  {
    if calls == [] then bios
    else
      var r, c := After(bios, calls[..|calls| - 1]), calls[|calls| - 1];
      RestIsSuffix(r, c.n, c.error);
      Rest(r, c.n, c.error)
  }

  /** Call k reported an error, and some of the bytes it was about belong to bio i. */
  ghost predicate Touched(bios: seq<Bio>, i: nat, calls: seq<Call>, k: nat)
    requires i < |bios| && k < |calls|
  {
    && calls[k].error != 0 && calls[k].n > 0
    && EndOf(bios, i) < Total(calls[..k + 1]) && Total(calls[..k]) < EndOf(bios, i + 1)
  }

  ghost predicate Untouched(bios: seq<Bio>, i: nat, calls: seq<Call>)
    requires i < |bios|
  {
    forall k: nat | k < |calls| :: !Touched(bios, i, calls, k)
  }

  // -------------------------------------------------------------------- one call

  /** What one call leaves at place t of the chain is what it left of bio i. */
  ghost predicate LeftOf(bios: seq<Bio>, i: nat, n: nat, error: int, r: seq<Bio>, t: nat) {
    && i < |bios| && t < |r|
    && r[t].id == bios[i].id && EndOf(r, t + 1) + n == EndOf(bios, i + 1)
    && r[t].uptodate == (bios[i].uptodate && !(error != 0 && n > 0 && EndOf(bios, i) < n))
  }

  lemma {:induction false} RestLeaves(bios: seq<Bio>, n: nat, error: int, t: nat)
    requires AllSized(bios) && t < |Rest(bios, n, error)|
    ensures var r := Rest(bios, n, error);
            |r| <= |bios| && LeftOf(bios, |bios| - |r| + t, n, error, r, t) && EndOf(bios, |bios| - |r|) <= n
    decreases |bios|
  {
    hide Advanced, Sized, EndOf, LeftOf, AllSized;
    var b, tail := bios[0], bios[1..];
    Uncons(bios);
    HeadTail(b, tail, n, error);
    if n < b.size {
      InFirst(b, tail, n, error, t);
      EndOfNone(bios);
    } else if n == b.size {
      PastFirst(b, tail, n, error, tail, t, t);
      Reaches(b, tail, n, 0);
    } else {
      hide Rest;
      RestLeaves(tail, n - b.size, error, t);
      var r := Rest(tail, n - b.size, error);
      PastFirst(b, tail, n, error, r, t, |tail| - |r| + t);
      Reaches(b, tail, n, |tail| - |r|);
    }
  }

  lemma InFirst(b: Bio, tail: seq<Bio>, n: nat, error: int, t: nat)
    requires Sized(b) && n < b.size && t <= |tail|
    ensures LeftOf([b] + tail, t, n, error, [Advanced(b, n, error)] + tail, t)
  {
    hide Advanced, Sized, EndOf;
    var a := Advanced(b, n, error);
    assert a.id == b.id && a.size == b.size - n && a.uptodate == (b.uptodate && (n == 0 || error == 0)) by {
      AdvancedFields(b, n, error);
    }
    EndOfCons(b, tail, t);
    EndOfCons(a, tail, t);
    EndOfNone([b] + tail);
    if t > 0 {
      EndOfCons(b, tail, t - 1);
    }
  }

  lemma EndOfCons(b: Bio, tail: seq<Bio>, i: nat)
    requires i <= |tail|
    ensures EndOf([b] + tail, i + 1) == b.size + EndOf(tail, i)
  {
    hide EndOf;
    EndOfTail([b] + tail, i + 1);
    assert ([b] + tail)[1..] == tail;
  }

  /** Nothing more happens to the bios behind one that is gone. */
  lemma PastFirst(b: Bio, tail: seq<Bio>, n: nat, error: int, r: seq<Bio>, t: nat, j: nat)
    requires n >= b.size && (if n == b.size then r == tail && t == j < |tail| else LeftOf(tail, j, n - b.size, error, r, t))
    ensures LeftOf([b] + tail, j + 1, n, error, r, t)
  {
    hide EndOf;
    EndOfCons(b, tail, j);
    EndOfCons(b, tail, j + 1);
  }

  lemma Reaches(b: Bio, tail: seq<Bio>, n: nat, m: nat)
    requires n >= b.size && m <= |tail| && (m == 0 || EndOf(tail, m) <= n - b.size)
    ensures EndOf([b] + tail, m + 1) <= n
  {
    hide EndOf;
    EndOfCons(b, tail, m);
    EndOfNone(tail);
  }

  /** And what the bios say that it ends. */
  lemma {:induction false} EndedWith(bios: seq<Bio>, n: nat, error: int, t: nat)
    requires AllSized(bios) && t < |EndedBios(bios, n, error)|
    ensures t < |bios|
    ensures EndedBios(bios, n, error)[t] ==
            Ended(bios[t].id, if error != 0 then error else if bios[t].uptodate then 0 else -5)
    decreases |bios|
  {
    hide Sized;
    if t > 0 {
      EndedWith(bios[1..], n - bios[0].size, error, t - 1);
    }
  }

  // -------------------------------------------------------------------- any number

  /** Where the chain the calls leave stands in the old one, and which of its bios still count as good. */
  ghost predicate Follows(bios: seq<Bio>, calls: seq<Call>, r: seq<Bio>, t: nat)
    requires t < |r| <= |bios|
  {
    var i := |bios| - |r| + t;
    && r[t].id == bios[i].id && EndOf(r, t + 1) + Total(calls) == EndOf(bios, i + 1)
    && (r[t].uptodate <==> bios[i].uptodate && Untouched(bios, i, calls))
  }

  lemma UntouchedSnoc(bios: seq<Bio>, i: nat, calls: seq<Call>)
    requires i < |bios| && calls != []
    ensures var before, last := calls[..|calls| - 1], |calls| - 1;
            Untouched(bios, i, calls) <==> Untouched(bios, i, before) && !Touched(bios, i, calls, last)
  {
    var before := calls[..|calls| - 1];
    forall k: nat | k < |before| ensures Touched(bios, i, before, k) <==> Touched(bios, i, calls, k) {
      assert before[..k] == calls[..k] && before[..k + 1] == calls[..k + 1];
    }
    if Untouched(bios, i, before) && !Touched(bios, i, calls, |calls| - 1) {
      forall k: nat | k < |calls| ensures !Touched(bios, i, calls, k) {
        assert k < |before| ==> !Touched(bios, i, before, k);
      }
    }
    if Untouched(bios, i, calls) {
      forall k: nat | k < |before| ensures !Touched(bios, i, before, k) {
        assert !Touched(bios, i, calls, k);
      }
    }
  }

  lemma {:induction false} AfterFollows(bios: seq<Bio>, calls: seq<Call>)
    requires AllSized(bios)
    ensures var r := After(bios, calls);
            && |r| <= |bios| && (r != [] ==> EndOf(bios, |bios| - |r|) <= Total(calls))
            && forall t | 0 <= t < |r| :: Follows(bios, calls, r, t)
    decreases |calls|
  {
    hide Rest, AllSized;
    var r := After(bios, calls);
    if calls == [] {
      EndOfNone(bios);
    } else {
      var before, c := calls[..|calls| - 1], calls[|calls| - 1];
      var p := After(bios, before);
      AfterFollows(bios, before);
      forall t | 0 <= t < |r| ensures |r| <= |p| && Follows(bios, calls, r, t) && EndOf(bios, |bios| - |r|) <= Total(calls) {
        RestLeaves(p, c.n, c.error, t);
        CallFollows(bios, calls, p, r, t);
      }
      if r != [] {
        RestLeaves(p, c.n, c.error, 0);
        assert Follows(bios, calls, r, 0);
      }
    }
  }

  lemma CallFollows(bios: seq<Bio>, calls: seq<Call>, p: seq<Bio>, r: seq<Bio>, t: nat)
    requires calls != [] && t < |r| <= |p| <= |bios|
    requires var before, c := calls[..|calls| - 1], calls[|calls| - 1];
             && (forall u | 0 <= u < |p| :: Follows(bios, before, p, u)) && EndOf(bios, |bios| - |p|) <= Total(before)
             && LeftOf(p, |p| - |r| + t, c.n, c.error, r, t) && EndOf(p, |p| - |r|) <= c.n
    ensures Follows(bios, calls, r, t) && EndOf(bios, |bios| - |r|) <= Total(calls)
  {
    hide Untouched;
    var before, c := calls[..|calls| - 1], calls[|calls| - 1];
    var u := |p| - |r| + t;
    var i := |bios| - |r| + t;
    assert i == |bios| - |p| + u;
    assert Follows(bios, before, p, u);
    UntouchedSnoc(bios, i, calls);
    assert calls[..|calls|] == calls;
    if u > 0 {
      assert Follows(bios, before, p, u - 1);
    } else {
      EndOfNone(p);
    }
    if |p| > |r| {
      assert Follows(bios, before, p, |p| - |r| - 1);
    }
  }

  /**
   No error is lost and none is made up.  Whatever calls came before, a bio ended by a call with an error ends
   with that error; by a call without, it ends well if and only if it came in good order and no earlier call
   with an error was about any of its bytes, and with -EIO (-5) if not.
   */
  lemma NoErrorLost(bios: seq<Bio>, calls: seq<Call>, n: nat, error: int, t: nat)
    requires AllSized(bios) && t < |EndedBios(After(bios, calls), n, error)|
    ensures var r := After(bios, calls);
            && t < |r| <= |bios|
            && var i := |bios| - |r| + t;
               EndedBios(r, n, error)[t] ==
               Ended(bios[i].id,
                     if error != 0 then error else if bios[i].uptodate && Untouched(bios, i, calls) then 0 else -5)
  {
    var r := After(bios, calls);
    hide Rest, AllSized, EndedBios, Untouched, After, EndOf, Total;
    EndedWith(r, n, error, t);
    AfterFollows(bios, calls);
    assert Follows(bios, calls, r, t);
  }
}
