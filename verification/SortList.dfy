/**
 The requests of an I/O scheduler and its two indexes over them.  A list holds request names;
 the table gives each named request its current fields.  The red-black tree of elv_rb_add,
 elv_rb_del and elv_rb_find (block/elevator.c) is the list of its nodes in order.
 */
module SortList {

  datatype Option<T> = None | Some(value: T)

  /**
   sync: the direction, synchronous for the anticipatory scheduler and a read for the deadline one.
   ioc: the submitting context (0 for none), and for CFQ the queue it belongs to.  expires: the time
   that orders the FIFO.  meta: a metadata request.
   */
  datatype Rq = Rq(sector: nat, nr: nat, sync: bool, ioc: nat, expires: int, meta: bool) {
    function End(): nat { sector + nr }
  }

  type Table = map<nat, Rq>

  predicate Known(t: Table, l: seq<nat>) {
    forall i | 0 <= i < |l| :: l[i] in t
  }

  /** A tree: sectors strictly increase from node to node. */
  predicate Sorted(t: Table, l: seq<nat>) {
    Known(t, l) && forall i, j | 0 <= i < j < |l| :: t[l[i]].sector < t[l[j]].sector
  }

  predicate Distinct(l: seq<nat>) {
    forall i, j | 0 <= i < j < |l| :: l[i] != l[j]
  }

  lemma SortedDistinct(t: Table, l: seq<nat>)
    requires Sorted(t, l)
    ensures Distinct(l)
  {
  }

  /** A tree is determined by its nodes. */
  lemma {:induction false} SortedUnique(t: Table, a: seq<nat>, b: seq<nat>)
    requires Sorted(t, a) && Sorted(t, b) && forall x :: x in a <==> x in b
    ensures a == b
  {
    hide Sorted;
    BothEmpty(a, b);
    if a != [] {
      FirstIsLeast(t, a, b[0]);
      FirstIsLeast(t, b, a[0]);
      TailSorted(t, a);
      TailSorted(t, b);
      SortedUnique(t, a[1..], b[1..]);
      assert a == [a[0]] + a[1..] && b == [b[0]] + b[1..];
    }
  }

  lemma BothEmpty(a: seq<nat>, b: seq<nat>)
    requires forall x :: x in a <==> x in b
    ensures a == [] <==> b == []
  {
    if a != [] {
      assert a[0] in a;
    }
    if b != [] {
      assert b[0] in b;
    }
  }

  lemma TailSorted(t: Table, l: seq<nat>)
    requires Sorted(t, l) && l != []
    ensures Sorted(t, l[1..]) && forall x :: x in l[1..] <==> x in l && x != l[0]
  {
    SortedDistinct(t, l);
  }

  lemma FirstIsLeast(t: Table, l: seq<nat>, x: nat)
    requires Sorted(t, l) && x in l
    ensures l[0] in t && x in t && t[l[0]].sector <= t[x].sector && (t[l[0]].sector == t[x].sector ==> l[0] == x)
  {
    var i :| 0 <= i < |l| && l[i] == x;
  }

  // --------------------------------------------------------------- removing a name

  function Without(l: seq<nat>, x: nat): (r: seq<nat>)
    ensures forall y :: y in r <==> y in l && y != x
    ensures x !in l ==> r == l
  {
    if l == [] then [] else if l[0] == x then Without(l[1..], x) else [l[0]] + Without(l[1..], x)
  }

  lemma {:induction false} WithoutAt(l: seq<nat>, k: nat)
    requires Distinct(l) && k < |l|
    ensures Without(l, l[k]) == l[..k] + l[k + 1..]
  {
    if k == 0 {
      assert l[k] !in l[1..];
    } else {
      WithoutAt(l[1..], k - 1);
      assert l[1..][..k - 1] == l[1..k] && l[1..][k..] == l[k + 1..];
      assert l[..k] + l[k + 1..] == [l[0]] + (l[1..k] + l[k + 1..]);
    }
  }

  lemma WithoutLength(l: seq<nat>, x: nat)
    requires Distinct(l) && x in l
    ensures |Without(l, x)| == |l| - 1 && Distinct(Without(l, x))
  {
    var k :| 0 <= k < |l| && l[k] == x;
    WithoutAt(l, k);
  }

  lemma WithoutDistinct(l: seq<nat>, x: nat)
    requires Distinct(l)
    ensures Distinct(Without(l, x))
  {
    if x in l {
      WithoutLength(l, x);
    }
  }

  lemma {:induction false} WithoutSorted(t: Table, l: seq<nat>, x: nat)
    requires Sorted(t, l)
    ensures Sorted(t, Without(l, x))
  {
    if l != [] {
      WithoutSorted(t, l[1..], x);
      if l[0] != x {
        PrependSorted(t, l[0], l[1..], Without(l[1..], x));
      }
    }
  }

  lemma PrependSorted(t: Table, x: nat, l: seq<nat>, r: seq<nat>)
    requires Sorted(t, [x] + l) && Sorted(t, r) && forall y :: y in r ==> y in l
    ensures Sorted(t, [x] + r)
  {
    assert ([x] + l)[0] == x;
    forall j | 0 <= j < |r| ensures t[x].sector < t[r[j]].sector {
      assert r[j] in l;
      var k := Index(l, r[j]);
      assert ([x] + l)[k + 1] == r[j];
    }
  }

  // ------------------------------------------------------------------ the tree

  /** elv_rb_find, and what elv_rb_add stumbles upon: the node at exactly that sector. */
  function Find(t: Table, l: seq<nat>, sector: nat): (r: Option<nat>)
    requires Known(t, l)
    ensures r.None? <==> forall i | 0 <= i < |l| :: t[l[i]].sector != sector
    ensures r.Some? ==> r.value in l && t[r.value].sector == sector
  {
    if l == [] then None else if t[l[0]].sector == sector then Some(l[0]) else Find(t, l[1..], sector)
  }

  /** elv_rb_add where no node has the sector. */
  function Insert(t: Table, l: seq<nat>, x: nat): (r: seq<nat>)
    requires Known(t, l) && x in t
    ensures forall y :: y in r <==> y in l || y == x
    ensures |r| == |l| + 1
  {
    if l == [] || t[x].sector < t[l[0]].sector then [x] + l else [l[0]] + Insert(t, l[1..], x)
  }

  lemma {:induction false} InsertSorted(t: Table, l: seq<nat>, x: nat)
    requires Sorted(t, l) && x in t && Find(t, l, t[x].sector).None?
    ensures Sorted(t, Insert(t, l, x))
  {
    var r := Insert(t, l, x);
    if l != [] && !(t[x].sector < t[l[0]].sector) {
      InsertSorted(t, l[1..], x);
      forall i, j | 0 <= i < j < |r| ensures t[r[i]].sector < t[r[j]].sector {
        assert r[j] in Insert(t, l[1..], x);
        assert r[j] == x || exists k | 0 <= k < |l[1..]| :: l[1..][k] == r[j];
      }
    }
  }

  function Index(l: seq<nat>, x: nat): (k: nat)
    requires x in l
    ensures k < |l| && l[k] == x
  {
    if l[0] == x then 0 else 1 + Index(l[1..], x)
  }

  lemma IndexUnique(l: seq<nat>, k: nat)
    requires Distinct(l) && k < |l|
    ensures Index(l, l[k]) == k
  {
  }

  /** rb_next and rb_prev. */
  function Next(l: seq<nat>, x: nat): Option<nat>
    requires x in l
  {
    var k := Index(l, x);
    if k + 1 < |l| then Some(l[k + 1]) else None
  }

  function Prev(l: seq<nat>, x: nat): Option<nat>
    requires x in l
  {
    var k := Index(l, x);
    if k > 0 then Some(l[k - 1]) else None
  }

  /** Fields outside the key may change under a tree. */
  lemma SortedFrame(t: Table, t': Table, l: seq<nat>)
    requires Sorted(t, l) && forall x | x in l :: x in t' && t'[x].sector == t[x].sector
    ensures Sorted(t', l)
  {
    forall i | 0 <= i < |l| ensures l[i] in t' {
      assert l[i] in l;
    }
    forall i, j | 0 <= i < j < |l| ensures t'[l[i]].sector < t'[l[j]].sector {
      assert l[i] in l && l[j] in l;
    }
  }

  // ------------------------------------------------------------------ the FIFO

  /** list_move(x, y): x leaves its place and comes right after y. */
  function MoveAfter(l: seq<nat>, x: nat, y: nat): seq<nat>
    requires x in l && y in l && x != y
  {
    var r := Without(l, x);
    var k := Index(r, y);
    r[..k + 1] + [x] + r[k + 1..]
  }

  lemma MoveAfterNames(l: seq<nat>, x: nat, y: nat)
    requires Distinct(l) && x in l && y in l && x != y
    ensures Distinct(MoveAfter(l, x, y)) && forall z :: z in MoveAfter(l, x, y) <==> z in l
  {
    WithoutDistinct(l, x);
    var r := Without(l, x);
    var k := Index(r, y);
    assert r == r[..k + 1] + r[k + 1..];
    assert x !in r;
  }

  /** A FIFO in expiry order. */
  predicate Expiring(t: Table, l: seq<nat>) {
    Known(t, l) && forall i, j | 0 <= i < j < |l| :: t[l[i]].expires <= t[l[j]].expires
  }

  /** y, which follows x, becomes part of x; the earlier expiry wins. */
  function MergedTable(t: Table, x: nat, y: nat): Table
    requires x in t && y in t
  {
    var rq := t[x].(nr := t[x].nr + t[y].nr);
    t[x := if t[y].expires < t[x].expires then rq.(expires := t[y].expires) else rq]
  }

  /** If y expires first, x moves into its place. */
  function MergedFifo(t: Table, fifo: seq<nat>, x: nat, y: nat): seq<nat>
    requires x in t && y in t && x in fifo && y in fifo && x != y
  {
    if t[y].expires < t[x].expires then MoveAfter(fifo, x, y) else fifo
  }

  lemma TakesPlace(r: seq<nat>, k: nat, x: nat)
    requires k < |r|
    ensures var m := r[..k + 1] + [x] + r[k + 1..]; m[k] == r[k] && m[..k] + m[k + 1..] == r[k := x]
  {
  }

  /** If y expires first, x comes to stand where y stood. */
  lemma MergedPlace(fifo: seq<nat>, x: nat, y: nat)
    requires x in fifo && y in fifo && x != y && Distinct(fifo)
    ensures var r := Without(fifo, x); Without(MoveAfter(fifo, x, y), y) == r[Index(r, y) := x]
  {
    MoveAfterNames(fifo, x, y);
    hide Without, Index, Distinct;
    var r := Without(fifo, x);
    TakesPlace(r, Index(r, y), x);
    WithoutAt(MoveAfter(fifo, x, y), Index(r, y));
  }

  /** No deadline is lost: the merged request expires when the first of the two did, and stands where that one stood. */
  lemma MergedDeadline(t: Table, fifo: seq<nat>, x: nat, y: nat)
    requires x in t && y in t && x in fifo && y in fifo && x != y && Distinct(fifo)
    ensures var r := MergedTable(t, x, y);
            && r.Keys == t.Keys && r[x].sector == t[x].sector && r[x].nr == t[x].nr + t[y].nr
            && r[x].expires == if t[y].expires < t[x].expires then t[y].expires else t[x].expires
    ensures Without(MergedFifo(t, fifo, x, y), y) ==
            if t[y].expires < t[x].expires then (var r := Without(fifo, x); r[Index(r, y) := x]) else Without(fifo, y)
  {
    hide Without, Index, Distinct, MoveAfter;
    MergedPlace(fifo, x, y);
  }

  lemma OneAtSector(t: Table, l: seq<nat>, x: nat)
    requires Sorted(t, l) && x in l
    ensures Known(t, Without(l, x)) && Find(t, Without(l, x), t[x].sector).None?
  {
    WithoutSorted(t, l, x);
    var r, k := Without(l, x), Index(l, x);
    forall i | 0 <= i < |r| ensures t[r[i]].sector != t[x].sector {
      assert r[i] in r;
      var j := Index(l, r[i]);
      assert l[j] == r[i] && l[k] == x && j != k;
    }
  }

  lemma {:induction false} WithoutExpiring(t: Table, l: seq<nat>, x: nat)
    requires Expiring(t, l)
    ensures Expiring(t, Without(l, x))
  {
    if l != [] {
      WithoutExpiring(t, l[1..], x);
      if l[0] != x {
        PrependExpiring(t, l[0], l[1..], Without(l[1..], x));
      }
    }
  }

  lemma PrependExpiring(t: Table, x: nat, l: seq<nat>, r: seq<nat>)
    requires Expiring(t, [x] + l) && Expiring(t, r) && forall y :: y in r ==> y in l
    ensures Expiring(t, [x] + r)
  {
    assert ([x] + l)[0] == x;
    forall j | 0 <= j < |r| ensures t[x].expires <= t[r[j]].expires {
      assert r[j] in l;
      var k := Index(l, r[j]);
      assert ([x] + l)[k + 1] == r[j];
    }
  }

  lemma SlotInExpiring(t: Table, r: seq<nat>, k: nat, x: nat)
    requires Expiring(t, r) && k < |r| && x in t && t[x].expires == t[r[k]].expires
    ensures Expiring(t, r[..k + 1] + [x] + r[k + 1..])
  {
    var m := r[..k + 1] + [x] + r[k + 1..];
    forall i | 0 <= i < |m| ensures m[i] == if i <= k then r[i] else if i == k + 1 then x else r[i - 1] {}
    assert forall i | 0 <= i < k :: t[r[i]].expires <= t[r[k]].expires;
    assert forall i | k < i < |r| :: t[r[k]].expires <= t[r[i]].expires;
  }

  lemma ExpiringFrame(t: Table, t': Table, l: seq<nat>)
    requires Expiring(t, l) && forall x | x in l :: x in t' && t'[x].expires == t[x].expires
    ensures Expiring(t', l)
  {
    forall i | 0 <= i < |l| ensures l[i] in t' && t'[l[i]].expires == t[l[i]].expires {
      assert l[i] in l;
    }
  }

  /** A merge keeps the FIFO in expiry order. */
  lemma MergedExpiring(t: Table, l: seq<nat>, x: nat, y: nat)
    requires Expiring(t, l) && x in l && y in l && x != y && x in t && y in t
    ensures Expiring(MergedTable(t, x, y), MergedFifo(t, l, x, y))
  {
    hide Expiring;
    var t' := MergedTable(t, x, y);
    ExpiringKnown(t, l);
    if t[y].expires < t[x].expires {
      WithoutExpiring(t, l, x);
      ExpiringFrame(t, t', Without(l, x));
      SlotInExpiring(t', Without(l, x), Index(Without(l, x), y), x);
    } else {
      ExpiringFrame(t, t', l);
    }
  }

  lemma ExpiringKnown(t: Table, l: seq<nat>)
    requires Expiring(t, l)
    ensures forall x | x in l :: x in t
  {
  }
}
