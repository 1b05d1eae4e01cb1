/**
 The next_rq cache of the anticipatory scheduler (block/as-iosched.c): as_choose_req prefers
 one of two requests relative to the disk head, as_find_next_rq looks only at the neighbours of
 a node, and yet the cache is the best of the whole tree.
 */
module AsCache {
  import opened SortList

  const MAXBACK := 1024 * 1024
  const BACK_PENALTY := 2

  // ----------------------------------------------------------------- the preference

  /** Too far behind the head: only reached by wrapping around. */
  predicate Wraps(last: nat, s: nat) {
    s + MAXBACK < last
  }

  function Cost(last: nat, s: nat): nat {
    if s >= last then s - last else (last - s) * BACK_PENALTY
  }

  /** One strict order of sectors: within reach by cost, the higher sector on a tie, then wrapped ones upwards. */
  predicate Before(last: nat, a: nat, b: nat) {
    if Wraps(last, a) then Wraps(last, b) && a < b
    else Wraps(last, b) || Cost(last, a) < Cost(last, b) || (Cost(last, a) == Cost(last, b) && a > b)
  }

  lemma BeforeIsTotalOrder(last: nat, a: nat, b: nat, c: nat)
    ensures !Before(last, a, a)
    ensures a != b ==> Before(last, a, b) || Before(last, b, a)
    ensures !(Before(last, a, b) && Before(last, b, a))
    ensures Before(last, a, b) && Before(last, b, c) ==> Before(last, a, c)
  {
  }

  /** as_choose_req. */
  function Choose(t: Table, last: nat, rq1: Option<nat>, rq2: Option<nat>): Option<nat>
    requires rq1.Some? ==> rq1.value in t
    requires rq2.Some? ==> rq2.value in t
  {
    if rq1.None? || rq1 == rq2 then rq2
    else if rq2.None? then rq1
    else
      var s1, s2 := t[rq1.value].sector, t[rq2.value].sector;
      var wrap1 := s1 < last && s1 + MAXBACK < last;
      var wrap2 := s2 < last && s2 + MAXBACK < last;
      var d1: nat := if s1 >= last then s1 - last else if wrap1 then 0 else (last - s1) * BACK_PENALTY;
      var d2: nat := if s2 >= last then s2 - last else if wrap2 then 0 else (last - s2) * BACK_PENALTY;
      if !wrap1 && wrap2 then rq1
      else if !wrap2 && wrap1 then rq2
      else if wrap1 && wrap2 then if s1 <= s2 then rq1 else rq2
      else if d1 < d2 then rq1
      else if d2 < d1 then rq2
      else if s1 >= s2 then rq1 else rq2
  }

  /** as_choose_req returns the minimum of the two; on equal sectors the first. */
  lemma ChooseIsMinimum(t: Table, last: nat, a: nat, b: nat)
    requires a in t && b in t && a != b
    ensures var r := Choose(t, last, Some(a), Some(b));
            r == if Before(last, t[b].sector, t[a].sector) then Some(b) else Some(a)
  {
  }

  // ------------------------------------------------------------- the best of a tree

  /** next is preferred over every other node; there is none only in the empty tree. */
  predicate Best(t: Table, last: nat, l: seq<nat>, next: Option<nat>) {
    match next
    case None => l == []
    case Some(x) =>
      && x in l && x in t
      && forall y | y in l && y != x :: y in t && Before(last, t[x].sector, t[y].sector)
  }

  /** as_find_next_rq: the node after x, or the first one, against the node before x. */
  function FindNext(t: Table, last: nat, l: seq<nat>, x: nat): Option<nat>
    requires Known(t, l) && x in l
  {
    var next := if Next(l, x).Some? then Next(l, x) else if l[0] != x then Some(l[0]) else None;
    Choose(t, last, next, Prev(l, x))
  }

  /** The head stands between the nodes before k and those after it, or all nodes wrap and k is the first. */
  predicate HeadAt(t: Table, last: nat, l: seq<nat>, k: nat)
    requires Known(t, l) && k < |l|
  {
    || ((forall j | 0 <= j < k :: t[l[j]].sector < last) && forall j | k < j < |l| :: t[l[j]].sector >= last)
    || (k == 0 && forall j | 0 <= j < |l| :: Wraps(last, t[l[j]].sector))
  }

  lemma NeighboursSuffice(t: Table, last: nat, l: seq<nat>, k: nat)
    requires Sorted(t, l) && k < |l| && HeadAt(t, last, l, k)
    ensures Best(t, last, Without(l, l[k]), FindNext(t, last, l, l[k]))
  {
    hide HeadAt, Before, FindNext;
    SortedDistinct(t, l);
    var rest := Without(l, l[k]);
    if |l| == 1 {
      LonelyNode(t, last, l);
    } else {
      FindNextFinds(t, last, l, k);
      forall y | y in rest && Some(y) != FindNext(t, last, l, l[k])
        ensures y in t && Before(last, t[FindNext(t, last, l, l[k]).value].sector, t[y].sector)
      {
        NeighbourBeats(t, last, l, k, Index(l, y));
      }
    }
  }

  lemma LonelyNode(t: Table, last: nat, l: seq<nat>)
    requires Known(t, l) && |l| == 1
    ensures Without(l, l[0]) == [] && FindNext(t, last, l, l[0]) == None
  {
  }

  lemma FindNextFinds(t: Table, last: nat, l: seq<nat>, k: nat)
    requires Sorted(t, l) && Distinct(l) && k < |l| && |l| > 1
    ensures var r := FindNext(t, last, l, l[k]); r.Some? && r.value in l && r.value != l[k]
  {
    IndexUnique(l, k);
  }

  /** Every other node loses to a neighbour of k, and hence to the chosen one. */
  lemma NeighbourBeats(t: Table, last: nat, l: seq<nat>, k: nat, j: nat)
    requires Sorted(t, l) && Distinct(l) && k < |l| && HeadAt(t, last, l, k) && |l| > 1
    requires j < |l| && j != k && FindNext(t, last, l, l[k]) != Some(l[j])
    ensures var r := FindNext(t, last, l, l[k]);
            r.Some? && r.value in l && Before(last, t[r.value].sector, t[l[j]].sector)
  {
    IndexUnique(l, k);
    var n := if k + 1 < |l| then k + 1 else 0;
    if k > 0 && l[n] != l[k - 1] {
      ChooseIsMinimum(t, last, l[n], l[k - 1]);
      BeforeIsTotalOrder(last, t[l[n]].sector, t[l[k - 1]].sector, t[l[j]].sector);
      BeforeIsTotalOrder(last, t[l[k - 1]].sector, t[l[n]].sector, t[l[j]].sector);
      assert j != n && j != k - 1 ==>
          Before(last, t[l[n]].sector, t[l[j]].sector) || Before(last, t[l[k - 1]].sector, t[l[j]].sector);
    }
  }

  /** Non-empty requests that do not overlap. */
  predicate Apart(t: Table, l: seq<nat>) {
    && (forall x | x in l :: x in t && t[x].nr > 0)
    && (forall x, y | x in l && y in l && x != y :: t[x].End() <= t[y].sector || t[y].End() <= t[x].sector)
  }

  /** Moving a request to the dispatch queue puts the head at its end: the neighbours hold the best of the rest. */
  lemma DispatchedNeighboursSuffice(t: Table, l: seq<nat>, x: nat)
    requires Sorted(t, l) && Apart(t, l) && x in l
    ensures Best(t, t[x].End(), Without(l, x), FindNext(t, t[x].End(), l, x))
  {
    var k := Index(l, x);
    forall j | 0 <= j < |l| && j != k ensures t[l[j]].sector < t[x].End() <==> j < k {
      assert l[j] in l;
    }
    NeighboursSuffice(t, t[x].End(), l, k);
  }

  /** No node around the head, nor the first one of the tree, is preferred over c. */
  predicate BeatsAround(t: Table, last: nat, l: seq<nat>, c: nat)
    requires Known(t, l) && c in t
  {
    var m := Below(t, last, l);
    && (m > 0 ==> !Before(last, t[l[m - 1]].sector, t[c].sector))
    && (m < |l| ==> !Before(last, t[l[m]].sector, t[c].sector))
    && (l != [] ==> !Before(last, t[l[0]].sector, t[c].sector))
  }

  /** How many nodes the head has passed. */
  function Below(t: Table, last: nat, l: seq<nat>): (m: nat)
    requires Known(t, l)
    ensures m <= |l| && (m < |l| ==> t[l[m]].sector >= last) && forall i | 0 <= i < m :: t[l[i]].sector < last
  {
    if l == [] || t[l[0]].sector >= last then 0 else 1 + Below(t, last, l[1..])
  }

  /** Every node loses to one around the head or to the first, or is it. */
  lemma AroundBeats(t: Table, last: nat, l: seq<nat>, j: nat) returns (z: nat)
    requires Sorted(t, l) && j < |l|
    ensures z == 0 || z == Below(t, last, l) - 1 || z == Below(t, last, l)
    ensures z < |l| && (z == j || Before(last, t[l[z]].sector, t[l[j]].sector))
  {
    var m := Below(t, last, l);
    z := if j >= m then m else if Wraps(last, t[l[j]].sector) then 0 else m - 1;
    hide Below;
  }

  /** A request is the best of the tree exactly if it beats the nodes around the head and the first one. */
  lemma BestIffBeatsAround(t: Table, last: nat, l: seq<nat>, c: nat)
    requires Sorted(t, l) && c in l && c in t
    ensures Best(t, last, l, Some(c)) <==> BeatsAround(t, last, l, c)
  {
    hide Before, Below;
    var k := Index(l, c);
    assert l[k] == c;
    if BeatsAround(t, last, l, c) {
      forall y | y in l && y != c ensures y in t && Before(last, t[c].sector, t[y].sector) {
        var j := Index(l, y);
        assert l[j] == y;
        var z := AroundBeats(t, last, l, j);
        BeforeIsTotalOrder(last, t[l[z]].sector, t[c].sector, t[y].sector);
        BeforeIsTotalOrder(last, t[c].sector, t[l[z]].sector, t[y].sector);
        assert t[l[z]].sector == t[c].sector ==> z == k;
      }
    } else {
      var m := Below(t, last, l);
      assert m > 0 ==> l[m - 1] in l;
      assert m < |l| ==> l[m] in l;
      forall y | y in l && y in t ensures !(Before(last, t[y].sector, t[c].sector) && Before(last, t[c].sector, t[y].sector)) {
        BeforeIsTotalOrder(last, t[y].sector, t[c].sector, 0);
      }
      BeforeIsTotalOrder(last, t[c].sector, t[c].sector, 0);
    }
  }

  /**
   Nothing begins inside x before the head, its end.  Or what does is out of reach, with all the rest, and x is
   one of the first two; or it is within reach and the node after it is no better.
   */
  predicate EndsBeforeNext(t: Table, l: seq<nat>, x: nat)
    requires Known(t, l) && x in l && x in t
  {
    var k, last := Index(l, x), t[x].End();
    || k + 1 >= |l| || t[l[k + 1]].sector >= last
    || if Wraps(last, t[l[k + 1]].sector) then k <= 1 && Wraps(last, t[l[|l| - 1]].sector)
       else k + 2 < |l| ==> Before(last, t[l[k + 1]].sector, t[l[k + 2]].sector)
  }

  /** What as_find_next_rq finds if the next node begins inside x: that one, or if it is out of reach the one before x. */
  lemma InsideFound(t: Table, last: nat, l: seq<nat>, k: nat)
    requires Sorted(t, l) && k + 1 < |l| && t[l[k + 1]].sector < last
    ensures FindNext(t, last, l, l[k]) == Some(if k > 0 && Wraps(last, t[l[k + 1]].sector) then l[k - 1] else l[k + 1])
  {
    SortedDistinct(t, l);
    IndexUnique(l, k);
    if k > 0 {
      ChooseIsMinimum(t, last, l[k + 1], l[k - 1]);
    }
  }

  lemma Beaten(t: Table, last: nat, l: seq<nat>, c: nat, y: nat)
    requires c in t && y in t && y in l && y != c && Before(last, t[y].sector, t[c].sector)
    ensures !Best(t, last, l, Some(c))
  {
    hide Before;
    BeforeIsTotalOrder(last, t[y].sector, t[c].sector, 0);
  }

  /** The next node begins inside x and is within reach. */
  lemma InsideReached(t: Table, last: nat, l: seq<nat>, k: nat)
    requires Sorted(t, l) && k + 1 < |l| && t[l[k]].sector <= t[l[k + 1]].sector < last && !Wraps(last, t[l[k + 1]].sector)
    ensures Best(t, last, Without(l, l[k]), Some(l[k + 1])) <==>
            (k + 2 < |l| ==> Before(last, t[l[k + 1]].sector, t[l[k + 2]].sector))
  {
    SortedDistinct(t, l);
    var n, rest := l[k + 1], Without(l, l[k]);
    assert n in l && n in rest;
    if k + 2 < |l| && !Before(last, t[n].sector, t[l[k + 2]].sector) {
      assert l[k + 2] in l;
      BeforeIsTotalOrder(last, t[n].sector, t[l[k + 2]].sector, 0);
      Beaten(t, last, rest, n, l[k + 2]);
    } else {
      forall y | y in rest && y != n ensures y in t && Before(last, t[n].sector, t[y].sector) {
        var j := Index(l, y);
        assert l[j] == y;
      }
    }
  }

  /** The next node begins inside x and is out of reach. */
  lemma InsideWrapped(t: Table, last: nat, l: seq<nat>, k: nat)
    requires Sorted(t, l) && k + 1 < |l| && t[l[k]].sector <= t[l[k + 1]].sector && Wraps(last, t[l[k + 1]].sector)
    ensures var c := if k > 0 then l[k - 1] else l[k + 1];
            Best(t, last, Without(l, l[k]), Some(c)) <==> k <= 1 && Wraps(last, t[l[|l| - 1]].sector)
  {
    hide Before;
    SortedDistinct(t, l);
    var c, rest, z := if k > 0 then l[k - 1] else l[k + 1], Without(l, l[k]), l[|l| - 1];
    assert c in l && c in rest && z in l && z in rest && l[0] in l;
    if k > 1 {
      assert l[0] in rest;
      WrappedOrder(last, t[l[0]].sector, t[c].sector);
      Beaten(t, last, rest, c, l[0]);
    } else if !Wraps(last, t[z].sector) {
      WrappedOrder(last, t[z].sector, t[c].sector);
      Beaten(t, last, rest, c, z);
    } else {
      forall y | y in rest && y != c ensures y in t && Before(last, t[c].sector, t[y].sector) {
        var j := Index(l, y);
        assert l[j] == y && t[l[j]].sector <= t[z].sector;
        WrappedOrder(last, t[c].sector, t[y].sector);
      }
    }
  }

  lemma WrappedOrder(last: nat, a: nat, b: nat)
    requires Wraps(last, b) && (Wraps(last, a) ==> a < b)
    ensures Before(last, a, b)
  {
  }

  /** Whatever overlaps: dispatching x leaves the best of the rest in the cache exactly under this condition on the tree. */
  lemma DispatchedBestIff(t: Table, l: seq<nat>, x: nat)
    requires Sorted(t, l) && x in l
    ensures Best(t, t[x].End(), Without(l, x), FindNext(t, t[x].End(), l, x)) <==> EndsBeforeNext(t, l, x)
  {
    hide Before, Best, FindNext, Without, Wraps;
    var k, last := Index(l, x), t[x].End();
    assert l[k] == x;
    hide Index;
    if k + 1 >= |l| || t[l[k + 1]].sector >= last {
      NeighboursSuffice(t, last, l, k);
    } else {
      InsideFound(t, last, l, k);
      if Wraps(last, t[l[k + 1]].sector) {
        InsideWrapped(t, last, l, k);
      } else {
        InsideReached(t, last, l, k);
      }
    }
  }

  /** It need not: a request of 100 sectors is dispatched, and of two that begin inside it the farther one is cached. */
  lemma OverlapCanStaleCache() returns (t: Table)
    ensures t.Keys == {1, 2, 3} && Sorted(t, [1, 2, 3]) && t[1].End() == 100 && t[2].sector == 10 && t[3].sector == 99
    ensures FindNext(t, 100, [1, 2, 3], 1) == Some(2) && !Best(t, 100, Without([1, 2, 3], 1), Some(2))
  {
    t := map[1 := Rq(0, 100, true, 0, 0, false), 2 := Rq(10, 8, true, 0, 0, false), 3 := Rq(99, 8, true, 0, 0, false)];
    var l := [1, 2, 3];
    assert l[0] == 1 && l[1] == 2 && l[2] == 3;
    IndexUnique(l, 0);
    assert 3 in Without(l, 1);
    assert Before(100, 99, 10) && !Before(100, 10, 99);
  }

  /** Taking away the best request leaves the head where it is: the neighbours hold the best of the rest. */
  lemma RemovedNeighboursSuffice(t: Table, last: nat, l: seq<nat>, x: nat)
    requires Sorted(t, l) && Best(t, last, l, Some(x))
    ensures Best(t, last, Without(l, x), FindNext(t, last, l, x))
  {
    SortedDistinct(t, l);
    var k := Index(l, x);
    assert HeadAt(t, last, l, k) by {
      forall j | 0 <= j < |l| && j != k ensures Before(last, t[x].sector, t[l[j]].sector) {}
    }
    NeighboursSuffice(t, last, l, k);
  }

  /** Taking away another one leaves the best. */
  lemma OtherRemoved(t: Table, last: nat, l: seq<nat>, x: nat, y: nat)
    requires Best(t, last, l, Some(x)) && x != y
    ensures Best(t, last, Without(l, y), Some(x))
  {
  }

  /** as_update_rq: comparing the newcomer with the cache is enough. */
  lemma AddedBest(t: Table, last: nat, l: seq<nat>, x: nat, next: Option<nat>)
    requires Known(t, l) && x in t && x !in l && Find(t, l, t[x].sector).None? && Best(t, last, l, next)
    ensures Best(t, last, Insert(t, l, x), Choose(t, last, Some(x), next))
  {
    hide Before;
    if next.Some? {
      var n := next.value;
      var k := Index(l, n);
      assert t[l[k]].sector != t[x].sector;
      ChooseIsMinimum(t, last, x, n);
      forall y | y in l ensures y in t {
        var j := Index(l, y);
        assert l[j] in t;
      }
      forall y | y in l
        ensures Before(last, t[x].sector, t[n].sector) && y != n ==> Before(last, t[x].sector, t[y].sector)
      {
        BeforeIsTotalOrder(last, t[x].sector, t[n].sector, t[y].sector);
      }
      BeforeIsTotalOrder(last, t[x].sector, t[n].sector, 0);
    }
  }

  // -------------------------------------------------------------------- front merges

  /** A bio of n sectors is merged in front of x. */
  function FrontMerged(t: Table, x: nat, n: nat): Table
    requires x in t && n <= t[x].sector
  {
    t[x := t[x].(sector := t[x].sector - n, nr := t[x].nr + n)]
  }

  /**
   as_merged_request leaves next_rq alone.  If x is cached it must, at its new start, still beat
   its two neighbours; if it is not, the cached request must still beat it.
   */
  predicate StaysBest(t: Table, last: nat, l: seq<nat>, next: Option<nat>, x: nat, n: nat)
    requires Known(t, l) && x in l && x in t && n <= t[x].sector
  {
    var s := t[x].sector - n;
    if next == Some(x) then
      && (Prev(l, x).Some? ==> Before(last, s, t[Prev(l, x).value].sector))
      && (Next(l, x).Some? ==> Before(last, s, t[Next(l, x).value].sector))
    else next.Some? && next.value in t && Before(last, t[next.value].sector, s)
  }

  /** The cache is right after a front merge exactly when StaysBest held before it. */
  lemma FrontMergeKeepsBest(t: Table, last: nat, l: seq<nat>, next: Option<nat>, x: nat, n: nat)
    requires Sorted(t, l) && x in l && n <= t[x].sector && Best(t, last, l, next)
    requires Sorted(FrontMerged(t, x, n), l)
    ensures Best(FrontMerged(t, x, n), last, l, next) <==> StaysBest(t, last, l, next, x, n)
  {
    hide Before;
    var t' := FrontMerged(t, x, n);
    var k := Index(l, x);
    assert l[k] == x;
    SortedDistinct(t, l);
    if next == Some(x) {
      if StaysBest(t, last, l, next, x, n) {
        forall y | y in l && y != x ensures Before(last, t'[x].sector, t'[y].sector) {
          FarLosesToNear(t, last, l, x, n, Index(l, y));
        }
      }
    } else {
      var b := next.value;
      assert Best(t', last, l, next) <==> Before(last, t'[b].sector, t'[x].sector);
    }
  }

  lemma NearBeatsFar(last: nat, s: nat, s': nat, near: nat, far: nat)
    requires s' <= s && Before(last, s', near) && Before(last, s, far) && (far < near < s' || s < near < far)
    ensures Before(last, s', far)
  {
  }

  lemma FarLosesToNear(t: Table, last: nat, l: seq<nat>, x: nat, n: nat, j: nat)
    requires Sorted(t, l) && Distinct(l) && x in l && n <= t[x].sector && Best(t, last, l, Some(x))
    requires Sorted(FrontMerged(t, x, n), l) && j < |l| && l[j] != x
    requires StaysBest(t, last, l, Some(x), x, n)
    ensures Before(last, t[x].sector - n, t[l[j]].sector)
  {
    hide Before;
    var t', k := FrontMerged(t, x, n), Index(l, x);
    assert l[k] == x;
    assert l[j] in l;
    if j + 1 < k {
      assert t'[l[j]].sector < t'[l[k - 1]].sector < t'[l[k]].sector;
      NearBeatsFar(last, t[x].sector, t'[x].sector, t[l[k - 1]].sector, t[l[j]].sector);
    } else if j > k + 1 {
      assert t[l[k]].sector < t[l[k + 1]].sector < t[l[j]].sector;
      NearBeatsFar(last, t[x].sector, t'[x].sector, t[l[k + 1]].sector, t[l[j]].sector);
    }
  }

  /** Not always so: head at 1000, the cache holds a request at 900, and one at 1300 grows down to 990. */
  lemma FrontMergeCanStaleCache() returns (t: Table)
    ensures Sorted(t, [1, 2]) && Best(t, 1000, [1, 2], Some(1))
    ensures t[2].sector == 1300 && Sorted(FrontMerged(t, 2, 310), [1, 2])
    ensures !Best(FrontMerged(t, 2, 310), 1000, [1, 2], Some(1))
  {
    t := map[1 := Rq(900, 8, true, 0, 0, false), 2 := Rq(1300, 8, true, 0, 0, false)];
    assert Before(1000, 900, 1300) && !Before(1000, 900, 990);
    assert 2 in [1, 2];
  }
}
