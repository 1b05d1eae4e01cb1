/**
 Unregistering an algorithm (crypto/algapi.c): crypto_remove_alg, crypto_remove_spawns and
 crypto_remove_spawn kill the instances built on it, and those built on them, with a worklist of
 spawns that is spliced while it is walked.
 */
module Spawns {
  import opened SortList

  /** listed: on crypto_alg_list.  hashed: an instance on its template's list.  tmpl: the template can be held. */
  datatype Alg = Alg(dead: bool, listed: bool, hashed: bool, tmpl: bool, users: seq<nat>)

  /** The algorithms before the call, and the instance each spawn belongs to. */
  datatype Graph = Graph(algs: map<nat, Alg>, inst: map<nat, nat>)

  /** Every spawn is on one users list, once, and belongs to an instance. */
  ghost predicate Wellformed(g: Graph) {
    && (forall a, s | a in g.algs && s in g.algs[a].users :: s in g.inst && g.inst[s] in g.algs)
    && (forall a | a in g.algs :: Distinct(g.algs[a].users))
    && (forall a, b, s | a in g.algs && b in g.algs && s in g.algs[a].users && s in g.algs[b].users :: a == b)
  }

  /** An instance whose own dependents are removed with it: alive, registered, template at hand. */
  predicate Expands(g: Graph, a: nat) {
    a in g.algs && !g.algs[a].dead && g.algs[a].hashed && g.algs[a].tmpl
  }

  ghost predicate Edge(g: Graph, a: nat, b: nat) {
    a in g.algs && exists s :: s in g.algs[a].users && s in g.inst && g.inst[s] == b
  }

  /** A chain of spawns from a: every instance but the last is one that expands. */
  ghost predicate Chain(g: Graph, a: nat, p: seq<nat>) {
    && p != [] && Edge(g, a, p[0])
    && (forall i | 0 <= i < |p| - 1 :: Expands(g, p[i]) && Edge(g, p[i], p[i + 1]))
  }

  ghost predicate Reaches(g: Graph, a: nat, b: nat) {
    exists p :: Chain(g, a, p) && p[|p| - 1] == b
  }

  lemma ReachesDirectly(g: Graph, a: nat, b: nat)
    requires Edge(g, a, b)
    ensures Reaches(g, a, b)
  {
    assert Chain(g, a, [b]);
    assert [b][|[b]| - 1] == b;
  }

  lemma ReachesFurther(g: Graph, a: nat, b: nat, c: nat)
    requires Reaches(g, a, b) && Expands(g, b) && Edge(g, b, c)
    ensures Reaches(g, a, c)
  {
    var p :| Chain(g, a, p) && p[|p| - 1] == b;
    var q := p + [c];
    forall i | 0 <= i < |q| - 1 ensures Expands(g, q[i]) && Edge(g, q[i], q[i + 1]) {
      assert i < |p| - 1 ==> Expands(g, p[i]) && Edge(g, p[i], p[i + 1]);
      assert i == |p| - 1 ==> q[i] == b && q[i + 1] == c;
    }
    assert q[|q| - 1] == c;
  }

  /** What the walk has done so far: who is dead, the removal list, and the spawns waiting. */
  ghost predicate Walked(g: Graph, root: nat, dead: set<nat>, removed: seq<nat>, todo: seq<nat>, linked: set<nat>) {
    && Sound(g, root, dead, removed, todo) && Complete(g, root, dead, removed, todo)
    && Waiting(g, root, removed, todo, linked)
  }

  /** Only what the root reaches is dead, removed or waiting. */
  ghost predicate Sound(g: Graph, root: nat, dead: set<nat>, removed: seq<nat>, todo: seq<nat>) {
    && (forall b | b in dead :: b in g.algs && (g.algs[b].dead || Reaches(g, root, b)))
    && (forall b | b in removed :: b in dead && Expands(g, b) && Reaches(g, root, b))
    && (forall s | s in todo :: s in g.inst && g.inst[s] in g.algs && Reaches(g, root, g.inst[s]))
    && Distinct(removed)
  }

  /** Every spawn of the root and of a removed instance is still waiting or its instance is dead. */
  ghost predicate Complete(g: Graph, root: nat, dead: set<nat>, removed: seq<nat>, todo: seq<nat>) {
    && (forall a, s | a in g.algs && (a == root || a in removed) && s in g.algs[a].users ::
          s in todo || (s in g.inst && g.inst[s] in dead))
    && (forall b | b in dead && Expands(g, b) :: b in removed)
    && (forall b | b in g.algs && g.algs[b].dead :: b in dead)
  }

  /** The waiting spawns are linked, once each, and so are those of algorithms not yet removed. */
  ghost predicate Waiting(g: Graph, root: nat, removed: seq<nat>, todo: seq<nat>, linked: set<nat>) {
    && Distinct(todo) && (forall s | s in todo :: s in linked)
    && (forall a, s | a in g.algs && a != root && a !in removed && s in g.algs[a].users :: s in linked && s !in todo)
  }

  /** When nothing waits, exactly what the root reaches is dead, and what expands is on the removal list. */
  lemma {:induction false} ChainIsDead(g: Graph, root: nat, dead: set<nat>, removed: seq<nat>, p: seq<nat>)
    requires Wellformed(g) && Complete(g, root, dead, removed, []) && Chain(g, root, p) && root in g.algs
    ensures p[|p| - 1] in dead
    decreases |p|
  {
    var k := |p| - 1;
    if k == 0 {
      var s :| s in g.algs[root].users && s in g.inst && g.inst[s] == p[0];
      assert g.inst[s] in dead;
    } else {
      assert Expands(g, p[k - 1]) && Edge(g, p[k - 1], p[k]);
      forall i | 0 <= i < |p[..k]| - 1 ensures Expands(g, p[..k][i]) && Edge(g, p[..k][i], p[..k][i + 1]) {
        assert Expands(g, p[i]) && Edge(g, p[i], p[i + 1]);
      }
      ChainIsDead(g, root, dead, removed, p[..k]);
      assert p[..k][k - 1] == p[k - 1];
      var s :| s in g.algs[p[k - 1]].users && s in g.inst && g.inst[s] == p[k];
      assert g.inst[s] in dead;
    }
  }

  lemma FinishedIsExact(g: Graph, root: nat, dead: set<nat>, removed: seq<nat>, linked: set<nat>)
    requires Wellformed(g) && root in g.algs && Walked(g, root, dead, removed, [], linked)
    ensures forall b :: b in dead <==> b in g.algs && (g.algs[b].dead || Reaches(g, root, b))
    ensures forall b :: b in removed <==> Expands(g, b) && Reaches(g, root, b)
    ensures Distinct(removed)
  {
    forall b | Reaches(g, root, b) ensures b in dead {
      var p :| Chain(g, root, p) && p[|p| - 1] == b;
      ChainIsDead(g, root, dead, removed, p);
    }
  }

  // ----------------------------------------------------------------------- the mask

  /** The type bits in which the algorithm of a spawn and a new one differ do not matter to the spawn. */
  predicate Passes(mask: nat -> bv32, differ: bv32, s: nat) {
    differ & mask(s) == 0
  }

  /** The spawns that crypto_remove_spawns does not leave alone. */
  function Passing(l: seq<nat>, mask: nat -> bv32, differ: bv32): seq<nat> {
    if l == [] then [] else (if Passes(mask, differ, l[0]) then [l[0]] else []) + Passing(l[1..], mask, differ)
  }

  /** Those that it does, in their order. */
  function Staying(l: seq<nat>, mask: nat -> bv32, differ: bv32): seq<nat> {
    if l == [] then [] else (if Passes(mask, differ, l[0]) then [] else [l[0]]) + Staying(l[1..], mask, differ)
  }

  /** Each spawn is in exactly one of the two. */
  lemma {:induction false} PassingNames(l: seq<nat>, mask: nat -> bv32, differ: bv32)
    ensures forall x :: x in Passing(l, mask, differ) <==> x in l && Passes(mask, differ, x)
    ensures forall x :: x in Staying(l, mask, differ) <==> x in l && !Passes(mask, differ, x)
  {
    hide Passes;
    if l != [] {
      PassingNames(l[1..], mask, differ);
    }
  }

  lemma {:induction false} PassingDistinct(l: seq<nat>, mask: nat -> bv32, differ: bv32)
    requires Distinct(l)
    ensures Distinct(Passing(l, mask, differ))
  {
    hide Passes;
    if l != [] {
      PassingDistinct(l[1..], mask, differ);
      PassingNames(l[1..], mask, differ);
      assert l[0] !in l[1..];
    }
  }

  lemma PassingFirst(l: seq<nat>, mask: nat -> bv32, differ: bv32)
    requires l != []
    ensures Passing(l, mask, differ) == (if Passes(mask, differ, l[0]) then [l[0]] else []) + Passing(l[1..], mask, differ)
    ensures Staying(l, mask, differ) == (if Passes(mask, differ, l[0]) then [] else [l[0]]) + Staying(l[1..], mask, differ)
  {
  }

  lemma PassingNone(mask: nat -> bv32, differ: bv32)
    ensures Passing([], mask, differ) == [] && Staying([], mask, differ) == []
  {
  }

  lemma NothingDiffers(m: bv32)
    ensures 0 & m == 0
  {
  }

  /** An algorithm of the same type concerns every spawn. */
  lemma {:induction false} AllPass(l: seq<nat>, mask: nat -> bv32)
    ensures Passing(l, mask, 0) == l && Staying(l, mask, 0) == []
  {
    if l != [] {
      NothingDiffers(mask(l[0]));
      AllPass(l[1..], mask);
      assert l == [l[0]] + l[1..];
    }
  }

  lemma SameType(x: bv32)
    ensures x ^ x == 0
  {
  }

  // ------------------------------------------------------------------------ one spawn

  /** The spawn is unlinked; its instance is already dead. */
  lemma SkipsDead(g: Graph, root: nat, dead: set<nat>, removed: seq<nat>, todo: seq<nat>, linked: set<nat>, s: nat, todo': seq<nat>)
    requires Walked(g, root, dead, removed, todo, linked) && s in todo && g.inst[s] in dead
    requires Distinct(todo') && forall x :: x in todo' <==> x in todo && x != s
    ensures Walked(g, root, dead, removed, todo', linked - {s})
  {
    hide Reaches, Expands, Distinct;
  }

  /** Its instance dies but is not registered, or its template cannot be held. */
  lemma MarksDead(g: Graph, root: nat, dead: set<nat>, removed: seq<nat>, todo: seq<nat>, linked: set<nat>, s: nat, todo': seq<nat>)
    requires Walked(g, root, dead, removed, todo, linked) && s in todo && !Expands(g, g.inst[s])
    requires Distinct(todo') && forall x :: x in todo' <==> x in todo && x != s
    ensures Walked(g, root, dead + {g.inst[s]}, removed, todo', linked - {s})
  {
    hide Reaches, Expands, Distinct;
  }

  lemma UsersReached(g: Graph, root: nat, b: nat)
    requires Wellformed(g) && Reaches(g, root, b) && Expands(g, b)
    ensures forall x | x in g.algs[b].users :: x in g.inst && g.inst[x] in g.algs && Reaches(g, root, g.inst[x])
  {
    forall x | x in g.algs[b].users ensures Reaches(g, root, g.inst[x]) {
      assert Edge(g, b, g.inst[x]);
      ReachesFurther(g, root, b, g.inst[x]);
    }
  }

  /** Its instance dies, goes to the removal list, and its own users are spliced into the worklist. */
  lemma RemovesInstance(g: Graph, root: nat, dead: set<nat>, removed: seq<nat>, todo: seq<nat>, linked: set<nat>, s: nat, todo': seq<nat>)
    requires Wellformed(g) && Walked(g, root, dead, removed, todo, linked) && s in todo
    requires var b := g.inst[s]; b !in dead && Expands(g, b) && b != root
    requires Distinct(todo') && forall x :: x in todo' <==> (x in todo && x != s) || x in g.algs[g.inst[s]].users
    ensures Walked(g, root, dead + {g.inst[s]}, [g.inst[s]] + removed, todo', linked - {s})
  {
    hide Reaches, Expands, Edge, Complete, Waiting, Wellformed;
    var b := g.inst[s];
    UsersReached(g, root, b);
    DistinctCons(b, removed);
    RemovesSound(g, root, dead, removed, todo, s, todo');
    RemovesComplete(g, root, dead, removed, todo, s, todo');
    RemovesWaiting(g, root, removed, todo, linked, s, todo');
  }

  lemma DistinctCons(x: nat, l: seq<nat>)
    requires Distinct(l) && x !in l
    ensures Distinct([x] + l)
  {
  }

  lemma RemovesWaiting(g: Graph, root: nat, removed: seq<nat>, todo: seq<nat>, linked: set<nat>, s: nat, todo': seq<nat>)
    requires Wellformed(g) && Waiting(g, root, removed, todo, linked) && s in todo && s in g.inst && g.inst[s] in g.algs
    requires g.inst[s] != root && g.inst[s] !in removed
    requires Distinct(todo') && forall x :: x in todo' <==> (x in todo && x != s) || x in g.algs[g.inst[s]].users
    ensures Waiting(g, root, [g.inst[s]] + removed, todo', linked - {s})
  {
    hide Distinct;
  }

  lemma RemovesSound(g: Graph, root: nat, dead: set<nat>, removed: seq<nat>, todo: seq<nat>, s: nat, todo': seq<nat>)
    requires Wellformed(g) && Sound(g, root, dead, removed, todo) && s in todo
    requires Expands(g, g.inst[s]) && Distinct([g.inst[s]] + removed)
    requires forall x | x in g.algs[g.inst[s]].users :: Reaches(g, root, g.inst[x])
    requires forall x :: x in todo' <==> (x in todo && x != s) || x in g.algs[g.inst[s]].users
    ensures Sound(g, root, dead + {g.inst[s]}, [g.inst[s]] + removed, todo')
  {
    hide Reaches, Distinct;
  }

  lemma RemovesComplete(g: Graph, root: nat, dead: set<nat>, removed: seq<nat>, todo: seq<nat>, s: nat, todo': seq<nat>)
    requires Wellformed(g) && Complete(g, root, dead, removed, todo) && s in todo && s in g.inst && g.inst[s] in g.algs
    requires forall x :: x in todo' <==> (x in todo && x != s) || x in g.algs[g.inst[s]].users
    ensures Complete(g, root, dead + {g.inst[s]}, [g.inst[s]] + removed, todo')
  {
    hide Expands, Distinct;
  }

  // ---------------------------------------------------------------------- in place

  /** How the flags and lists of the algorithms have changed. */
  ghost predicate Tied(g: Graph, root: nat, dead: set<nat>, removed: seq<nat>, algs: map<nat, Alg>) {
    && algs.Keys == g.algs.Keys
    && (forall b | b in algs :: algs[b].dead == (b in dead) && algs[b].tmpl == g.algs[b].tmpl)
    && (forall b | b in algs && b != root && b !in removed ::
          algs[b].hashed == g.algs[b].hashed && algs[b].users == g.algs[b].users)
  }

  /** The walk does not come back to where it started. */
  ghost predicate OneWay(g: Graph, root: nat, dead: set<nat>) {
    root in dead || !Reaches(g, root, root)
  }

  class Registry {
    var algs: map<nat, Alg>
    const inst: map<nat, nat>
    const mask: nat -> bv32
    var removed: seq<nat>
    var secondary: seq<nat>

    /** crypto_remove_spawn; rest: the spawns of the current pass still to come. */
    method RemoveSpawn(s: nat, ghost g: Graph, ghost root: nat, ghost dead: set<nat>, ghost rest: seq<nat>, ghost linked: set<nat>)
        returns (ghost dead': set<nat>)
      requires Wellformed(g) && inst == g.inst && OneWay(g, root, dead) && root in algs
      requires Tied(g, root, dead, removed, algs)
      requires Walked(g, root, dead, removed, secondary + ([s] + rest), linked)
      modifies this`algs, this`removed, this`secondary
      ensures Tied(g, root, dead', removed, algs) && OneWay(g, root, dead')
      ensures Walked(g, root, dead', removed, secondary + rest, linked - {s})
      ensures root in algs && algs[root] == old(algs)[root]
    {
      hide Walked, Reaches, Wellformed;
      WalkedFacts(g, root, dead, removed, secondary, s, rest, linked);
      WalkedReaches(g, root, dead, removed, secondary, s, rest, linked);
      var b := inst[s];
      dead' := dead;
      if algs[b].dead {
        SkipsDead(g, root, dead, removed, secondary + ([s] + rest), linked, s, secondary + rest);
        return;
      }
      dead' := dead + {b};
      TiedMore(g, root, dead, removed, algs, b);
      assert algs[b].hashed == g.algs[b].hashed && algs[b].users == g.algs[b].users && algs[b].tmpl == g.algs[b].tmpl;
      hide Tied;
      if !algs[b].hashed || !algs[b].tmpl {
        algs := algs[b := algs[b].(dead := true)];
        MarksDead(g, root, dead, removed, secondary + ([s] + rest), linked, s, secondary + rest);
        return;
      }
      SplicedFacts(g, root, dead, removed, secondary, s, rest, linked);
      RemovesInstance(g, root, dead, removed, secondary + ([s] + rest), linked, s, (algs[b].users + secondary) + rest);
      removed := [b] + removed;
      secondary := algs[b].users + secondary;
      algs := algs[b := algs[b].(dead := true, hashed := false, users := [])];
    }

    /**
     One pass of list_for_each_entry_safe, which leaves alone the spawns that do not care: what is spliced
     in meanwhile waits for the next pass.
     */
    method RemoveAll(spawns: seq<nat>, differ: bv32, ghost g: Graph, ghost root: nat, ghost dead: set<nat>, ghost linked: set<nat>)
        returns (stay: seq<nat>, ghost dead': set<nat>, ghost linked': set<nat>)
      requires Wellformed(g) && inst == g.inst && OneWay(g, root, dead) && root in algs && secondary == []
      requires Tied(g, root, dead, removed, algs) && Walked(g, root, dead, removed, Passing(spawns, mask, differ), linked)
      modifies this`algs, this`removed, this`secondary
      ensures stay == Staying(spawns, mask, differ)
      ensures Tied(g, root, dead', removed, algs) && OneWay(g, root, dead')
      ensures Walked(g, root, dead', removed, secondary, linked')
      ensures linked' <= linked && (Passing(spawns, mask, differ) != [] ==> |linked'| < |linked|)
      ensures root in algs && algs[root] == old(algs)[root]
    {
      hide Walked, Tied, Wellformed, OneWay, Passing, Staying, Passes;
      stay, dead', linked' := [], dead, linked;
      var rest := spawns;
      assert secondary + Passing(rest, mask, differ) == Passing(rest, mask, differ);
      while rest != []
        invariant Tied(g, root, dead', removed, algs) && OneWay(g, root, dead')
        invariant Walked(g, root, dead', removed, secondary + Passing(rest, mask, differ), linked')
        invariant stay + Staying(rest, mask, differ) == Staying(spawns, mask, differ)
        invariant linked' <= linked && |Passing(rest, mask, differ)| <= |Passing(spawns, mask, differ)|
        invariant |linked'| + |Passing(spawns, mask, differ)| == |linked| + |Passing(rest, mask, differ)|
        invariant root in algs && algs[root] == old(algs)[root]
        decreases |rest|
      {
        var s := rest[0];
        ghost var later := Passing(rest[1..], mask, differ);
        PassingFirst(rest, mask, differ);
        if !Passes(mask, differ, s) {
          assert [] + later == later;
          assert stay + ([s] + Staying(rest[1..], mask, differ)) == stay + [s] + Staying(rest[1..], mask, differ);
          stay := stay + [s];
        } else {
          assert [] + Staying(rest[1..], mask, differ) == Staying(rest[1..], mask, differ);
          WalkedFacts(g, root, dead', removed, secondary, s, later, linked');
          assert |linked' - {s}| == |linked'| - 1;
          dead' := RemoveSpawn(s, g, root, dead', later, linked');
          linked' := linked' - {s};
        }
        rest := rest[1..];
      }
      PassingNone(mask, differ);
      assert secondary + [] == secondary && stay + [] == stay;
    }

    /** The two loops of crypto_remove_spawns; differ: the bits in which the types differ. */
    method WalkSpawns(a: nat, differ: bv32) returns (stay: seq<nat>, ghost dead: set<nat>, ghost linked: set<nat>)
      requires a in algs && secondary == [] && removed == [] && Wellformed(Graph(algs, inst))
      requires algs[a].dead || !Reaches(Cut(algs, inst, mask, a, differ), a, a)
      modifies this`algs, this`removed, this`secondary
      ensures stay == Staying(old(algs)[a].users, mask, differ) && secondary == []
      ensures var g := Cut(old(algs), inst, mask, a, differ);
              Wellformed(g) && Tied(g, a, dead, removed, algs) && Walked(g, a, dead, removed, [], linked)
      ensures a in algs && algs[a] == old(algs)[a]
    {
      hide Walked, Reaches, Tied, Wellformed, OneWay, Passing, Staying;
      CutWellformed(algs, inst, mask, a, differ);
      ghost var g := Cut(algs, inst, mask, a, differ);
      dead, linked := (set b | b in algs && algs[b].dead), inst.Keys;
      CutStart(algs, inst, mask, a, differ, dead);
      hide Cut;
      stay, dead, linked := RemoveAll(algs[a].users, differ, g, a, dead, linked);
      while secondary != []
        invariant Tied(g, a, dead, removed, algs) && OneWay(g, a, dead)
        invariant Walked(g, a, dead, removed, secondary, linked)
        invariant a in algs && algs[a] == old(algs)[a]
        decreases |linked|
      {
        var spawns := secondary;
        secondary := [];
        AllPass(spawns, mask);
        var none;
        none, dead, linked := RemoveAll(spawns, 0, g, a, dead, linked);
      }
    }

    /** crypto_remove_spawns for the users of a, whose flags are given, and a type. */
    method RemoveSpawns(a: nat, flags: bv32, newType: bv32)
      requires a in algs && secondary == [] && removed == [] && Wellformed(Graph(algs, inst))
      requires algs[a].dead || !Reaches(Cut(algs, inst, mask, a, flags ^ newType), a, a)
      modifies this`algs, this`removed, this`secondary
      ensures var g := Cut(old(algs), inst, mask, a, flags ^ newType);
              && algs.Keys == g.algs.Keys
              && (forall b | b in algs :: algs[b].dead <==> g.algs[b].dead || Reaches(g, a, b))
              && (forall b :: b in removed <==> Expands(g, b) && Reaches(g, a, b))
              && Distinct(removed) && secondary == []
              && algs[a] == old(algs)[a].(users := Staying(old(algs)[a].users, mask, flags ^ newType))
    {
      hide Walked, Reaches, Expands, Tied, Wellformed, Distinct, Passing, Staying;
      ghost var g := Cut(algs, inst, mask, a, flags ^ newType);
      ghost var dead, linked;
      var stay;
      stay, dead, linked := WalkSpawns(a, flags ^ newType);
      FinishedIsExact(g, a, dead, removed, linked);
      TiedFlags(g, a, dead, removed, algs);
      algs := algs[a := algs[a].(users := stay)];
    }

    /** crypto_remove_alg. */
    method RemoveAlg(a: nat, flags: bv32) returns (ok: bool)
      requires Wellformed(Graph(algs, inst)) && a in algs && secondary == [] && removed == []
      modifies this
      ensures ok == old(algs)[a].listed
      ensures !ok ==> algs == old(algs) && removed == []
      ensures ok ==>
        var g := Graph(old(algs)[a := old(algs)[a].(dead := true, listed := false)], inst);
        && algs.Keys == g.algs.Keys
        && (forall b | b in algs :: algs[b].dead <==> g.algs[b].dead || Reaches(g, a, b))
        && (forall b :: b in removed <==> Expands(g, b) && Reaches(g, a, b))
        && Distinct(removed) && secondary == [] && algs[a].users == []
    {
      hide Reaches, Expands, Wellformed;
      if !algs[a].listed {
        return false;
      }
      MarkedWellformed(algs, inst, a);
      algs := algs[a := algs[a].(dead := true, listed := false)];
      SameType(flags);
      AllPass(algs[a].users, mask);
      assert algs[a := algs[a].(users := algs[a].users)] == algs;
      RemoveSpawns(a, flags, flags);
      return true;
    }
  }

  /** The algorithms with only those users of a that the walk starts from. */
  ghost function Cut(algs: map<nat, Alg>, inst: map<nat, nat>, mask: nat -> bv32, a: nat, differ: bv32): Graph
    requires a in algs
  {
    Graph(algs[a := algs[a].(users := Passing(algs[a].users, mask, differ))], inst)
  }

  /** A well-formed registry is one also without the spawns that stay. */
  lemma CutWellformed(algs: map<nat, Alg>, inst: map<nat, nat>, mask: nat -> bv32, a: nat, differ: bv32)
    requires Wellformed(Graph(algs, inst)) && a in algs
    ensures Wellformed(Cut(algs, inst, mask, a, differ))
  {
    PassingDistinct(algs[a].users, mask, differ);
    PassingNames(algs[a].users, mask, differ);
    hide Distinct, Passes, Passing;
  }

  lemma CutStart(algs: map<nat, Alg>, inst: map<nat, nat>, mask: nat -> bv32, a: nat, differ: bv32, dead: set<nat>)
    requires a in algs && dead == (set b | b in algs && algs[b].dead)
    requires var g := Cut(algs, inst, mask, a, differ); Wellformed(g) && (algs[a].dead || !Reaches(g, a, a))
    ensures var g := Cut(algs, inst, mask, a, differ);
            && g.inst == inst && Tied(g, a, dead, [], algs) && OneWay(g, a, dead)
            && Walked(g, a, dead, [], Passing(algs[a].users, mask, differ), inst.Keys)
  {
    hide Walked, Reaches, Tied, Wellformed, OneWay, Passing;
    var g := Cut(algs, inst, mask, a, differ);
    assert dead == set b | b in g.algs && g.algs[b].dead;
    Started(g, a, dead);
    assert algs == g.algs[a := g.algs[a].(users := algs[a].users)];
    TiedStart(g, a, dead, algs);
    OneWayStart(g, a, dead);
  }

  lemma OneWayStart(g: Graph, root: nat, dead: set<nat>)
    requires root in g.algs && dead == (set b | b in g.algs && g.algs[b].dead) && (g.algs[root].dead || !Reaches(g, root, root))
    ensures OneWay(g, root, dead)
  {
  }

  lemma WalkedReaches(g: Graph, root: nat, dead: set<nat>, removed: seq<nat>, front: seq<nat>, s: nat, rest: seq<nat>, linked: set<nat>)
    requires Walked(g, root, dead, removed, front + ([s] + rest), linked)
    ensures s in g.inst && Reaches(g, root, g.inst[s])
  {
    hide Reaches, Complete, Waiting;
    assert (front + ([s] + rest))[|front|] == s;
  }

  lemma MarkedWellformed(algs: map<nat, Alg>, inst: map<nat, nat>, a: nat)
    requires Wellformed(Graph(algs, inst)) && a in algs
    ensures Wellformed(Graph(algs[a := algs[a].(dead := true, listed := false)], inst))
  {
    hide Distinct;
  }

  lemma TiedFlags(g: Graph, root: nat, dead: set<nat>, removed: seq<nat>, algs: map<nat, Alg>)
    requires Tied(g, root, dead, removed, algs)
    ensures algs.Keys == g.algs.Keys && forall b | b in algs :: algs[b].dead == (b in dead)
  {
  }

  lemma TiedStart(g: Graph, root: nat, dead: set<nat>, algs: map<nat, Alg>)
    requires root in g.algs && root in algs && dead == (set b | b in g.algs && g.algs[b].dead)
    requires algs == g.algs[root := g.algs[root].(users := algs[root].users)]
    ensures Tied(g, root, dead, [], algs)
  {
  }

  /** An instance died, and if it expands its users were spliced away. */
  lemma TiedMore(g: Graph, root: nat, dead: set<nat>, removed: seq<nat>, algs: map<nat, Alg>, b: nat)
    requires Tied(g, root, dead, removed, algs) && b in algs
    ensures Tied(g, root, dead + {b}, removed, algs[b := algs[b].(dead := true)])
    ensures Tied(g, root, dead + {b}, [b] + removed, algs[b := algs[b].(dead := true, hashed := false, users := [])])
  {
  }

  lemma Started(g: Graph, root: nat, dead: set<nat>)
    requires Wellformed(g) && root in g.algs && dead == set b | b in g.algs && g.algs[b].dead
    ensures Walked(g, root, dead, [], g.algs[root].users, g.inst.Keys)
  {
    forall s | s in g.algs[root].users ensures Reaches(g, root, g.inst[s]) {
      assert Edge(g, root, g.inst[s]);
      ReachesDirectly(g, root, g.inst[s]);
    }
    hide Reaches, Distinct, Edge;
  }

  lemma WalkedFacts(g: Graph, root: nat, dead: set<nat>, removed: seq<nat>, front: seq<nat>, s: nat, rest: seq<nat>, linked: set<nat>)
    requires Walked(g, root, dead, removed, front + ([s] + rest), linked)
    ensures s in g.inst && g.inst[s] in g.algs && s in linked
    ensures Distinct(front + rest) && forall x :: x in front + rest <==> x in front + ([s] + rest) && x != s
    ensures g.inst[s] !in dead ==> !g.algs[g.inst[s]].dead && g.inst[s] !in removed
  {
    var todo := front + ([s] + rest);
    assert todo[|front|] == s;
    hide Reaches, Complete, Waiting;
    assert Distinct(todo);
    assert forall i | 0 <= i < |front| :: todo[i] == front[i];
    assert forall i | 0 <= i < |rest| :: todo[|front| + 1 + i] == rest[i];
  }

  lemma DistinctAppend(a: seq<nat>, b: seq<nat>)
    requires Distinct(a) && Distinct(b) && forall x | x in a :: x !in b
    ensures Distinct(a + b)
  {
    var c := a + b;
    forall i, j | 0 <= i < j < |c| ensures c[i] != c[j] {
      assert i < |a| ==> c[i] in a;
      assert j >= |a| ==> c[j] in b;
    }
  }

  lemma SplicedFacts(g: Graph, root: nat, dead: set<nat>, removed: seq<nat>, front: seq<nat>, s: nat, rest: seq<nat>, linked: set<nat>)
    requires Wellformed(g) && Walked(g, root, dead, removed, front + ([s] + rest), linked)
    requires s in g.inst && g.inst[s] in g.algs && g.inst[s] !in dead && g.inst[s] != root
    ensures var users := g.algs[g.inst[s]].users;
            && Distinct((users + front) + rest)
            && forall x :: x in (users + front) + rest <==> (x in front + ([s] + rest) && x != s) || x in users
  {
    hide Reaches, Expands, Complete, Distinct;
    var users := g.algs[g.inst[s]].users;
    WalkedFacts(g, root, dead, removed, front, s, rest, linked);
    assert forall x | x in users :: x !in front + ([s] + rest);
    DistinctAppend(users, front + rest);
    assert (users + front) + rest == users + (front + rest);
  }
}
