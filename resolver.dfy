/** The status resolver (`getTaskState`): derives one of ready, semi-ready,
    blocked or done for a task from its raw state and, recursively, from the
    statuses of its dependencies. */
module Resolver {
  import opened TaskGraph

  /** The derived status; never stored. */
  datatype Status = Ready | SemiReady | Blocked | Done

  /** The statuses `readySomewhere` looks for among the dependencies. */
  predicate Actionable(s: Status)
  {
    s == Status.Ready || s == Status.SemiReady
  }

  /** `task.deps.every(done)`: every dependency's RAW state is done. */
  predicate AllDepsDone(g: Graph, deps: seq<nat>)
    requires forall d :: d in deps ==> d in g.tasks
  {
    forall d :: d in deps ==> g.tasks[d].state == RawState.Done
  }

  /** `getTaskState(db, id)`: the first-match precedence chain. The final
      `oops(1)` branch is unreachable for the three raw states. */
  function Resolve(g: Graph, id: nat): (r: Status)
    requires WellFormed(g) && id in g.tasks
    ensures g.tasks[id].state == RawState.Blocked ==> r == Status.Blocked
    ensures r == Status.Done <==> g.tasks[id].state == RawState.Done
    ensures r == Status.Ready <==> g.tasks[id].state == RawState.Todo && AllDepsDone(g, g.tasks[id].deps)
    decreases g.idx - id, 1
  {
    var t := g.tasks[id];
    if t.state == RawState.Blocked then Status.Blocked
    else if t.state == RawState.Todo && AllDepsDone(g, t.deps) then Status.Ready
    else if ReadySomewhere(g, id) then Status.SemiReady
    else if t.state == RawState.Todo && !AllDepsDone(g, t.deps) then Status.Blocked
    else if t.state == RawState.Done then Status.Done
    else assert false; Status.Blocked
  }

  /** The inner `readySomewhere(id)`: a task that is neither done nor
      blocked is actionable somewhere when it has no dependencies or some
      dependency resolves to ready or semi-ready. */
  predicate ReadySomewhere(g: Graph, id: nat)
    requires WellFormed(g) && id in g.tasks
    decreases g.idx - id, 0
  {
    var t := g.tasks[id];
    if t.state == RawState.Done then false
    else if t.state == RawState.Blocked then false
    else if |t.deps| == 0 then true
    else exists d :: d in t.deps && Actionable(Resolve(g, d))
  }

  /** A todo task with at least one unfinished dependency resolves to
      semi-ready exactly when some dependency is ready or semi-ready, and to
      blocked otherwise. */
  lemma PartialDepsResolve(g: Graph, id: nat)
    requires WellFormed(g) && id in g.tasks
    requires g.tasks[id].state == RawState.Todo && !AllDepsDone(g, g.tasks[id].deps)
    ensures Resolve(g, id) == Status.SemiReady <==> exists d :: d in g.tasks[id].deps && Actionable(Resolve(g, d))
    ensures Resolve(g, id) != Status.SemiReady ==> Resolve(g, id) == Status.Blocked
  {
  }

  /** `b` is `a` or lies below `a` along dependency edges. */
  ghost predicate Reaches(g: Graph, a: nat, b: nat)
    requires WellFormed(g) && a in g.tasks
    decreases g.idx - a
  {
    a == b || exists d :: d in g.tasks[a].deps && Reaches(g, d, b)
  }

  /** What semi-ready means: a task that resolves to ready or semi-ready has
      a ready task somewhere below it. */
  lemma {:induction false} ActionableReachesReady(g: Graph, id: nat)
    requires WellFormed(g) && id in g.tasks && Actionable(Resolve(g, id))
    ensures exists k :: k in g.tasks && Reaches(g, id, k) && Resolve(g, k) == Status.Ready
    decreases g.idx - id
  {
    if Resolve(g, id) == Status.Ready {
      assert Reaches(g, id, id);
    } else {
      assert ReadySomewhere(g, id);
      var d :| d in g.tasks[id].deps && Actionable(Resolve(g, d));
      ActionableReachesReady(g, d);
      var k :| k in g.tasks && Reaches(g, d, k) && Resolve(g, k) == Status.Ready;
      assert Reaches(g, id, k);
    }
  }

  /** A task's status depends only on the tasks whose ids are at least its
      own: two well-formed graphs that agree there resolve it alike. */
  lemma {:induction false} ResolveFrame(g: Graph, h: Graph, id: nat)
    requires WellFormed(g) && WellFormed(h) && id in g.tasks
    requires forall k :: k in g.tasks && id <= k ==> k in h.tasks && h.tasks[k] == g.tasks[k]
    ensures id in h.tasks && Resolve(h, id) == Resolve(g, id)
    decreases g.idx - id
  {
    forall d | d in g.tasks[id].deps
      ensures d in h.tasks && Resolve(h, d) == Resolve(g, d)
    {
      ResolveFrame(g, h, d);
    }
    assert ReadySomewhere(h, id) == ReadySomewhere(g, id);
  }
}
