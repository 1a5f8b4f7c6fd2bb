/** The parent index (`computeParents`, `getParents`, `getTopLevel`): for each
    task, the tasks that list it as a dependency, and the tasks nobody lists.
    Keys are visited in ascending numeric order, the order `Object.keys`
    gives for integer-like keys. */
module ParentIndex {
  import opened TaskGraph

  /** `x` written `n` times. */
  function Repeat(x: nat, n: nat): (s: seq<nat>)
  {
    if n == 0 then [] else Repeat(x, n - 1) + [x]
  }

  /** How often `x` occurs in `s`. */
  function Count(s: seq<nat>, x: nat): nat
  {
    if s == [] then 0
    else Count(s[..|s| - 1], x) + (if s[|s| - 1] == x then 1 else 0)
  }

  /** The parent list of `d` built from the tasks with ids below `n`: each
      owner, in key order, once per occurrence of `d` in its dependencies. */
  function ParentsBelow(g: Graph, d: nat, n: nat): seq<nat>
  {
    if n == 0 then []
    else ParentsBelow(g, d, n - 1)
         + (if n - 1 in g.tasks then Repeat(n - 1, Count(g.tasks[n - 1].deps, d)) else [])
  }

  /** What `db.index.parents` holds once `load` has built it. */
  predicate IsParentIndex(g: Graph, parents: map<nat, seq<nat>>)
  {
    && parents.Keys == g.tasks.Keys
    && forall d :: d in parents ==> parents[d] == ParentsBelow(g, d, g.idx)
  }

  /** An entry that is missing reads as the empty list. */
  function Lookup(parents: map<nat, seq<nat>>, d: nat): seq<nat>
  {
    if d in parents then parents[d] else []
  }

  lemma {:induction false} CountMember(s: seq<nat>, x: nat)
    ensures Count(s, x) > 0 <==> x in s
  {
    if s != [] {
      CountMember(s[..|s| - 1], x);
      assert s == s[..|s| - 1] + [s[|s| - 1]];
    }
  }

  lemma {:induction false} CountConcat(a: seq<nat>, b: seq<nat>, x: nat)
    ensures Count(a + b, x) == Count(a, x) + Count(b, x)
  {
    if b == [] {
      assert a + b == a;
    } else {
      CountConcat(a, b[..|b| - 1], x);
      assert (a + b)[..|a + b| - 1] == a + b[..|b| - 1];
    }
  }

  lemma {:induction false} RepeatCount(x: nat, n: nat, p: nat)
    ensures Count(Repeat(x, n), p) == if p == x then n else 0
  {
    if n > 0 {
      RepeatCount(x, n - 1, p);
      assert Repeat(x, n)[..|Repeat(x, n)| - 1] == Repeat(x, n - 1);
    }
  }

  /** `p` occurs in the parent list of `d` exactly as often as `d` occurs in
      the dependencies of `p`. */
  lemma {:induction false} ParentsCount(g: Graph, d: nat, n: nat, p: nat)
    ensures Count(ParentsBelow(g, d, n), p) ==
              if p < n && p in g.tasks then Count(g.tasks[p].deps, d) else 0
  {
    if n > 0 {
      ParentsCount(g, d, n - 1, p);
      var tail := if n - 1 in g.tasks then Repeat(n - 1, Count(g.tasks[n - 1].deps, d)) else [];
      CountConcat(ParentsBelow(g, d, n - 1), tail, p);
      if n - 1 in g.tasks {
        RepeatCount(n - 1, Count(g.tasks[n - 1].deps, d), p);
      }
    }
  }

  /** A task is among the parents of `d` exactly when it lists `d`. */
  lemma ParentsMembership(g: Graph, d: nat)
    requires WellFormed(g)
    ensures forall p :: p in ParentsBelow(g, d, g.idx) <==> p in g.tasks && d in g.tasks[p].deps
  {
    forall p
      ensures p in ParentsBelow(g, d, g.idx) <==> p in g.tasks && d in g.tasks[p].deps
    {
      ParentsCount(g, d, g.idx, p);
      CountMember(ParentsBelow(g, d, g.idx), p);
      if p in g.tasks {
        CountMember(g.tasks[p].deps, d);
      }
    }
  }

  /** `if (!idx[d]) idx[d] = []; idx[d].push(p)`. */
  function Push(parents: map<nat, seq<nat>>, d: nat, p: nat): map<nat, seq<nat>>
  {
    parents[d := Lookup(parents, d) + [p]]
  }

  /** The inner `forEach`: push owner `p` onto the entry of each of `ds`. */
  function PushAll(parents: map<nat, seq<nat>>, p: nat, ds: seq<nat>): map<nat, seq<nat>>
  {
    if ds == [] then parents
    else Push(PushAll(parents, p, ds[..|ds| - 1]), ds[|ds| - 1], p)
  }

  /** The index after the outer `forEach` has visited the ids below `n`. */
  function IndexBelow(g: Graph, n: nat): map<nat, seq<nat>>
  {
    if n == 0 then map[]
    else
      var m := IndexBelow(g, n - 1);
      if n - 1 in g.tasks then
        PushAll(m[n - 1 := Lookup(m, n - 1)], n - 1, g.tasks[n - 1].deps)
      else m
  }

  lemma {:induction false} PushAllLookup(parents: map<nat, seq<nat>>, p: nat, ds: seq<nat>, k: nat)
    ensures Lookup(PushAll(parents, p, ds), k) == Lookup(parents, k) + Repeat(p, Count(ds, k))
  {
    if ds != [] {
      var front := ds[..|ds| - 1];
      var last := ds[|ds| - 1];
      PushAllLookup(parents, p, front, k);
      var m := PushAll(parents, p, front);
      PushLookup(m, last, p, k);
      var c := Count(front, k);
      if k == last {
        assert Count(ds, k) == c + 1;
        assert Repeat(p, c + 1) == Repeat(p, c) + [p];
      } else {
        assert Count(ds, k) == c;
      }
    }
  }

  /** One push appends `p` to the entry of `d` and leaves the others. */
  lemma PushLookup(m: map<nat, seq<nat>>, d: nat, p: nat, k: nat)
    ensures Lookup(Push(m, d, p), k) == if k == d then Lookup(m, k) + [p] else Lookup(m, k)
  {
  }

  lemma {:induction false} PushAllKeys(parents: map<nat, seq<nat>>, p: nat, ds: seq<nat>, k: nat)
    ensures k in PushAll(parents, p, ds) <==> k in parents || k in ds
  {
    if ds != [] {
      var front: seq<nat> := ds[..|ds| - 1];
      assert ds == front + [ds[|ds| - 1]];
      PushAllKeys(parents, p, front, k);
    }
  }

  /** The index built from the ids below `n` holds, for each `d`, the parent
      list `ParentsBelow`. */
  lemma {:induction false} IndexBelowLookup(g: Graph, n: nat, k: nat)
    ensures Lookup(IndexBelow(g, n), k) == ParentsBelow(g, k, n)
  {
    if n > 0 {
      IndexBelowLookup(g, n - 1, k);
      var m := IndexBelow(g, n - 1);
      if n - 1 in g.tasks {
        PushAllLookup(m[n - 1 := Lookup(m, n - 1)], n - 1, g.tasks[n - 1].deps, k);
      }
    }
  }

  /** In a well-formed graph the index built from the ids below `n` has an
      entry for every task below `n` and only for tasks. */
  lemma {:induction false} IndexBelowKeys(g: Graph, n: nat, k: nat)
    requires WellFormed(g)
    ensures k in IndexBelow(g, n) ==> k in g.tasks
    ensures k in g.tasks && k < n ==> k in IndexBelow(g, n)
  {
    if n > 0 {
      IndexBelowKeys(g, n - 1, k);
      var m := IndexBelow(g, n - 1);
      if n - 1 in g.tasks {
        PushAllKeys(m[n - 1 := Lookup(m, n - 1)], n - 1, g.tasks[n - 1].deps, k);
      }
    }
  }

  /** The inner `forEach` of `computeParents`: push owner `p` onto the
      entry of each of `ds`, creating the entries that are missing. */
  method PushEach(entered: map<nat, seq<nat>>, p: nat, ds: seq<nat>) returns (parents: map<nat, seq<nat>>)
    ensures parents == PushAll(entered, p, ds)
  {
    parents := entered;
    var j := 0;
    while j < |ds|
      invariant 0 <= j <= |ds|
      invariant parents == PushAll(entered, p, ds[..j])
    {
      var did := ds[j];
      if did !in parents {
        parents := parents[did := []];
      }
      parents := parents[did := parents[did] + [p]];
      assert ds[..j + 1][..j] == ds[..j];
      j := j + 1;
    }
    assert ds[..|ds|] == ds;
  }

  /** `computeParents(db)`: every task gets an entry, and each dependency
      edge `p -> d` appends `p` to the entry of `d`. */
  method ComputeParents(g: Graph) returns (parents: map<nat, seq<nat>>)
    requires WellFormed(g)
    ensures IsParentIndex(g, parents) && parents == IndexBelow(g, g.idx)
    ensures forall d, p :: d in parents && p in g.tasks ==>
              Count(parents[d], p) == Count(g.tasks[p].deps, d)
  {
    parents := map[];
    var i := 0;
    while i < g.idx
      invariant 0 <= i <= g.idx
      invariant parents == IndexBelow(g, i)
    {
      if i in g.tasks {
        if i !in parents {
          parents := parents[i := []];
        }
        assert parents == IndexBelow(g, i)[i := Lookup(IndexBelow(g, i), i)];
        parents := PushEach(parents, i, g.tasks[i].deps);
      }
      i := i + 1;
    }
    IndexIsParentIndex(g, parents);
  }

  /** The finished index has one entry per task, holding its parent list:
      `p` appears in the entry of `d` exactly as often as `d` appears in the
      dependencies of `p`. */
  lemma IndexIsParentIndex(g: Graph, parents: map<nat, seq<nat>>)
    requires WellFormed(g) && parents == IndexBelow(g, g.idx)
    ensures IsParentIndex(g, parents)
    ensures forall d, p :: d in parents && p in g.tasks ==>
              Count(parents[d], p) == Count(g.tasks[p].deps, d)
  {
    forall k: nat
      ensures (k in parents <==> k in g.tasks) && (k in parents ==> parents[k] == ParentsBelow(g, k, g.idx))
    {
      IndexBelowLookup(g, g.idx, k);
      IndexBelowKeys(g, g.idx, k);
    }
    forall d, p | d in parents && p in g.tasks
      ensures Count(parents[d], p) == Count(g.tasks[p].deps, d)
    {
      ParentsCount(g, d, g.idx, p);
    }
  }

  /** `getParents(db, id)`: the tasks that list `id` as a dependency. */
  function GetParents(g: Graph, parents: map<nat, seq<nat>>, id: nat): (r: seq<nat>)
    requires WellFormed(g) && IsParentIndex(g, parents) && id in g.tasks
    ensures forall p :: p in r <==> p in g.tasks && id in g.tasks[p].deps
  {
    ParentsMembership(g, id);
    parents[id]
  }

  /** The ids below `n`, in key order, that are tasks with an empty entry in
      the index. */
  function RootsBelow(g: Graph, parents: map<nat, seq<nat>>, n: nat): (r: seq<nat>)
    ensures forall i :: 0 <= i < |r| ==> r[i] < n && r[i] in g.tasks
  {
    if n == 0 then []
    else RootsBelow(g, parents, n - 1)
         + (if n - 1 in g.tasks && Lookup(parents, n - 1) == [] then [n - 1] else [])
  }

  /** The roots below `n` are exactly the tasks below `n` whose entry is
      empty. */
  lemma {:induction false} RootsBelowSpec(g: Graph, parents: map<nat, seq<nat>>, n: nat, x: nat)
    ensures x in RootsBelow(g, parents, n) <==> x < n && x in g.tasks && Lookup(parents, x) == []
  {
    if n > 0 {
      RootsBelowSpec(g, parents, n - 1, x);
      var s := RootsBelow(g, parents, n - 1);
      if x in s {
        var i :| 0 <= i < |s| && s[i] == x;
      }
    }
  }

  /** The roots below `n` are strictly increasing. */
  lemma {:induction false} RootsBelowSorted(g: Graph, parents: map<nat, seq<nat>>, n: nat)
    ensures forall i, j :: 0 <= i < j < |RootsBelow(g, parents, n)| ==>
              RootsBelow(g, parents, n)[i] < RootsBelow(g, parents, n)[j]
  {
    if n > 0 {
      RootsBelowSorted(g, parents, n - 1);
    }
  }

  /** No task lists `x` among its dependencies. */
  ghost predicate Unreferenced(g: Graph, x: nat)
  {
    forall p :: p in g.tasks ==> x !in g.tasks[p].deps
  }

  /** Read through the parent index, the top-level tasks are exactly the
      tasks nobody depends on. */
  lemma RootsAreUnreferenced(g: Graph, parents: map<nat, seq<nat>>)
    requires WellFormed(g) && IsParentIndex(g, parents)
    ensures forall x :: x in RootsBelow(g, parents, g.idx) <==> x in g.tasks && Unreferenced(g, x)
  {
    forall x
      ensures x in RootsBelow(g, parents, g.idx) <==> x in g.tasks && Unreferenced(g, x)
    {
      RootsBelowSpec(g, parents, g.idx, x);
      if x in g.tasks {
        var ps := parents[x];
        assert ps == ParentsBelow(g, x, g.idx);
        ParentsMembership(g, x);
        if ps != [] {
          assert ps[0] in ps;
        }
        if !Unreferenced(g, x) {
          var p :| p in g.tasks && x in g.tasks[p].deps;
          assert p in ps;
        }
      }
    }
  }

  /** The top-level tasks of a document, as `getTopLevel` lists them once
      `load` has built the index. */
  function TopLevelIds(g: Graph): seq<nat>
  {
    RootsBelow(g, IndexBelow(g, g.idx), g.idx)
  }

  /** The top-level tasks of a well-formed document are strictly increasing
      and are exactly the tasks no task depends on. */
  lemma TopLevelIdsSpec(g: Graph)
    requires WellFormed(g)
    ensures forall i, j :: 0 <= i < j < |TopLevelIds(g)| ==> TopLevelIds(g)[i] < TopLevelIds(g)[j]
    ensures forall x :: x in TopLevelIds(g) <==> x in g.tasks && Unreferenced(g, x)
  {
    var parents := IndexBelow(g, g.idx);
    IndexIsParentIndex(g, parents);
    RootsBelowSorted(g, parents, g.idx);
    RootsAreUnreferenced(g, parents);
  }

  /** `getTopLevel(db)`: the ids, in key order, whose parent list is empty,
      that is, the tasks no task depends on. */
  method TopLevel(g: Graph, parents: map<nat, seq<nat>>) returns (res: seq<nat>)
    requires WellFormed(g) && IsParentIndex(g, parents)
    ensures res == RootsBelow(g, parents, g.idx)
    ensures forall i, j :: 0 <= i < j < |res| ==> res[i] < res[j]
    ensures forall x :: x in res <==> x in g.tasks && Unreferenced(g, x)
  {
    res := [];
    var i := 0;
    while i < g.idx
      invariant 0 <= i <= g.idx
      invariant res == RootsBelow(g, parents, i)
    {
      if i in g.tasks && |GetParents(g, parents, i)| == 0 {
        res := res + [i];
      }
      i := i + 1;
    }
    RootsBelowSorted(g, parents, g.idx);
    RootsAreUnreferenced(g, parents);
  }
}
