/** The four mutating commands: `add`, `done`, `block` and `unblock`. Each
    is a pure transition on a `Graph`, with lemmas about what it does to the
    resolved statuses, and a method on the mutable `Database` that performs
    it in place and is proved to agree with it. */
module Commands {
  import opened TaskGraph
  import opened Resolver

  /** `add [parent] description`: allocate `idx`, insert a todo task with no
      dependencies, and append the new id to the parent's dependencies. */
  function AddTask(g: Graph, description: string, parent: Option<nat>): (r: Graph)
    requires WellFormed(g) && (parent.Some? ==> parent.value in g.tasks)
    ensures WellFormed(r)
    ensures r.idx == g.idx + 1 && g.idx !in g.tasks
    ensures r.tasks.Keys == g.tasks.Keys + {g.idx}
    ensures r.tasks[g.idx] == Task(description, [], RawState.Todo)
    ensures parent.Some? ==>
      r.tasks[parent.value] == g.tasks[parent.value].(deps := g.tasks[parent.value].deps + [g.idx])
    ensures forall k :: k in g.tasks && parent != Some(k) ==> r.tasks[k] == g.tasks[k]
  {
    var id := g.idx;
    assert id !in g.tasks;
    var linked := if parent.Some? then
                    var p := g.tasks[parent.value];
                    g.tasks[parent.value := p.(deps := p.deps + [id])]
                  else g.tasks;
    var r := Graph(g.idx + 1, linked[id := Task(description, [], RawState.Todo)]);
    LinkedWellFormed(g, r, parent);
    r
  }

  /** Adding a task with no dependencies and linking it below an existing
      parent keeps a graph well-formed: the new id is larger than every
      other. */
  lemma LinkedWellFormed(g: Graph, r: Graph, parent: Option<nat>)
    requires WellFormed(g) && (parent.Some? ==> parent.value in g.tasks)
    requires r.idx == g.idx + 1 && r.tasks.Keys == g.tasks.Keys + {g.idx}
    requires r.tasks[g.idx].deps == []
    requires parent.Some? ==> r.tasks[parent.value].deps == g.tasks[parent.value].deps + [g.idx]
    requires forall k :: k in g.tasks && parent != Some(k) ==> r.tasks[k] == g.tasks[k]
    ensures WellFormed(r)
  {
    forall k, d | k in r.tasks && d in r.tasks[k].deps
      ensures k < d && d in r.tasks
    {
      if k != g.idx && parent != Some(k) {
        assert d in g.tasks[k].deps;
      }
    }
  }

  /** `done id`: accepted only when the task resolves to ready. */
  function MarkDone(g: Graph, id: nat): (r: Graph)
    requires WellFormed(g) && id in g.tasks
    ensures WellFormed(r) && OnlyStateOf(g, r, id)
  {
    if Resolve(g, id) == Status.Ready then
      g.(tasks := g.tasks[id := g.tasks[id].(state := RawState.Done)])
    else g
  }

  /** `block id`: accepted unless the task resolves to done. */
  function MarkBlocked(g: Graph, id: nat): (r: Graph)
    requires WellFormed(g) && id in g.tasks
    ensures WellFormed(r) && OnlyStateOf(g, r, id)
  {
    if Resolve(g, id) != Status.Done then
      g.(tasks := g.tasks[id := g.tasks[id].(state := RawState.Blocked)])
    else g
  }

  /** `unblock id`: accepted whenever the task RESOLVES to blocked, whether
      the block is explicit or comes from its dependencies. */
  function MarkUnblocked(g: Graph, id: nat): (r: Graph)
    requires WellFormed(g) && id in g.tasks
    ensures WellFormed(r) && OnlyStateOf(g, r, id)
  {
    if Resolve(g, id) == Status.Blocked then
      g.(tasks := g.tasks[id := g.tasks[id].(state := RawState.Todo)])
    else g
  }

  /** What the three state commands have in common: only `id`'s raw state
      may change; the counter, the ids, every description and every
      dependency list stay as they were. */
  predicate OnlyStateOf(g: Graph, r: Graph, id: nat)
  {
    && r.idx == g.idx
    && r.tasks.Keys == g.tasks.Keys
    && (forall k :: k in g.tasks && k != id ==> r.tasks[k] == g.tasks[k])
    && (id in g.tasks ==>
          && r.tasks[id].description == g.tasks[id].description
          && r.tasks[id].deps == g.tasks[id].deps)
  }

  /** The new task resolves to ready, and every task allocated after the
      parent (every task, when there is none) keeps its status. */
  lemma AddKeepsStatuses(g: Graph, description: string, parent: Option<nat>)
    requires WellFormed(g) && (parent.Some? ==> parent.value in g.tasks)
    ensures Resolve(AddTask(g, description, parent), g.idx) == Status.Ready
    ensures forall k :: k in g.tasks && (parent.None? || parent.value < k) ==>
      Resolve(AddTask(g, description, parent), k) == Resolve(g, k)
  {
    var r := AddTask(g, description, parent);
    forall k | k in g.tasks && (parent.None? || parent.value < k)
      ensures Resolve(r, k) == Resolve(g, k)
    {
      ResolveFrame(g, r, k);
    }
  }

  /** Adding a child to a parent that was ready makes the parent semi-ready:
      its new dependency is not done, but is itself ready. */
  lemma AddDemotesReadyParent(g: Graph, description: string, p: nat)
    requires WellFormed(g) && p in g.tasks && Resolve(g, p) == Status.Ready
    ensures Resolve(AddTask(g, description, Some(p)), p) == Status.SemiReady
  {
    var r := AddTask(g, description, Some(p));
    assert g.idx in r.tasks[p].deps;
    assert Resolve(r, g.idx) == Status.Ready;
  }

  /** `done` is accepted exactly when the task resolves to ready; it then
      resolves to done, and nothing but its raw state changes. */
  lemma MarkDoneOutcome(g: Graph, id: nat)
    requires WellFormed(g) && id in g.tasks
    ensures MarkDone(g, id) != g <==> Resolve(g, id) == Status.Ready
    ensures Resolve(g, id) == Status.Ready ==> Resolve(MarkDone(g, id), id) == Status.Done
  {
    if Resolve(g, id) == Status.Ready {
      assert MarkDone(g, id).tasks[id].state != g.tasks[id].state;
    }
  }

  /** Marking a task done leaves the status of every later task as it was. */
  lemma MarkDoneKeepsLaterStatuses(g: Graph, id: nat, k: nat)
    requires WellFormed(g) && id in g.tasks && k in g.tasks && id < k
    ensures Resolve(MarkDone(g, id), k) == Resolve(g, k)
  {
    MarkDoneOutcome(g, id);
    ResolveFrame(g, MarkDone(g, id), k);
  }

  /** A todo task whose only unfinished dependency was `id` becomes ready
      once `done id` is accepted. */
  lemma MarkDoneReadiesDependent(g: Graph, id: nat, p: nat)
    requires WellFormed(g) && p in g.tasks && id in g.tasks[p].deps
    requires Resolve(g, id) == Status.Ready
    requires g.tasks[p].state == RawState.Todo
    requires forall d :: d in g.tasks[p].deps && d != id ==> g.tasks[d].state == RawState.Done
    ensures Resolve(MarkDone(g, id), p) == Status.Ready
  {
    var r := MarkDone(g, id);
    MarkDoneOutcome(g, id);
    assert r.tasks[p].state == RawState.Todo;
    assert AllDepsDone(r, r.tasks[p].deps);
  }

  /** `block` is refused exactly on done tasks; otherwise it writes raw
      state blocked, so the task then resolves to blocked whatever becomes
      of its dependencies. Only its raw state changes. */
  lemma BlockOutcome(g: Graph, id: nat)
    requires WellFormed(g) && id in g.tasks
    ensures Resolve(g, id) == Status.Done ==> MarkBlocked(g, id) == g
    ensures Resolve(g, id) != Status.Done ==> MarkBlocked(g, id).tasks[id].state == RawState.Blocked
    ensures Resolve(g, id) != Status.Done ==> Resolve(MarkBlocked(g, id), id) == Status.Blocked
  {
  }

  /** Blocking twice is blocking once. */
  lemma BlockIdempotent(g: Graph, id: nat)
    requires WellFormed(g) && id in g.tasks
    ensures MarkBlocked(MarkBlocked(g, id), id) == MarkBlocked(g, id)
  {
    BlockOutcome(g, id);
    var b := MarkBlocked(g, id);
    if Resolve(g, id) != Status.Done {
      assert b.tasks[id].state == RawState.Blocked;
      assert b.tasks[id := b.tasks[id]] == b.tasks;
    }
  }

  /** `unblock` is accepted exactly when the task resolves to blocked and
      then leaves it with raw state todo; only that raw state changes. */
  lemma UnblockOutcome(g: Graph, id: nat)
    requires WellFormed(g) && id in g.tasks
    ensures Resolve(g, id) == Status.Blocked ==> MarkUnblocked(g, id).tasks[id].state == RawState.Todo
    ensures Resolve(g, id) != Status.Blocked ==> MarkUnblocked(g, id) == g
  {
  }

  /** On a raw-todo task `unblock` leaves the graph unchanged: when the task
      resolves blocked (only its dependencies block it) it is accepted and
      writes todo over todo, and otherwise it is refused. */
  lemma UnblockOnTodoIsNoop(g: Graph, id: nat)
    requires WellFormed(g) && id in g.tasks && g.tasks[id].state == RawState.Todo
    ensures MarkUnblocked(g, id) == g
  {
    assert g.tasks[id := g.tasks[id].(state := RawState.Todo)] == g.tasks;
  }

  /** `unblock` undoes `block` on a todo task. */
  lemma UnblockUndoesBlock(g: Graph, id: nat)
    requires WellFormed(g) && id in g.tasks && g.tasks[id].state == RawState.Todo
    ensures MarkUnblocked(MarkBlocked(g, id), id) == g
  {
    BlockOutcome(g, id);
    var b := MarkBlocked(g, id);
    assert b.tasks[id].state == RawState.Blocked;
    assert b.tasks[id := b.tasks[id].(state := RawState.Todo)] == g.tasks;
  }

  /** The loaded document, updated in place by the command bodies. */
  class Database {
    var idx: nat
    var tasks: map<nat, Task>

    function Snapshot(): Graph
      reads this
    {
      Graph(idx, tasks)
    }

    predicate Valid()
      reads this
    {
      WellFormed(Snapshot())
    }

    /** What `load` returns when no document exists. */
    constructor ()
      ensures Valid() && Snapshot() == Empty()
    {
      idx := 0;
      tasks := map[];
    }

    method Add(description: string, parent: Option<nat>) returns (id: nat)
      requires Valid() && (parent.Some? ==> parent.value in tasks)
      modifies this
      ensures Snapshot() == AddTask(old(Snapshot()), description, parent)
      ensures id == old(idx) && id !in old(tasks)
      ensures Valid()
    {
      id := idx;
      idx := idx + 1;
      var task := Task(description, [], RawState.Todo);
      if parent.Some? {
        var p := tasks[parent.value];
        tasks := tasks[parent.value := p.(deps := p.deps + [id])];
      }
      tasks := tasks[id := task];
    }

    method Done(id: nat) returns (ok: bool)
      requires Valid() && id in tasks
      modifies this
      ensures Snapshot() == MarkDone(old(Snapshot()), id)
      ensures ok <==> Resolve(old(Snapshot()), id) == Status.Ready
      ensures Valid()
    {
      var task := tasks[id];
      var state := Resolve(Snapshot(), id);
      ok := state == Status.Ready;
      if ok {
        tasks := tasks[id := task.(state := RawState.Done)];
      }
    }

    method Block(id: nat) returns (ok: bool)
      requires Valid() && id in tasks
      modifies this
      ensures Snapshot() == MarkBlocked(old(Snapshot()), id)
      ensures ok <==> Resolve(old(Snapshot()), id) != Status.Done
      ensures Valid()
    {
      var task := tasks[id];
      var state := Resolve(Snapshot(), id);
      ok := state != Status.Done;
      if ok {
        tasks := tasks[id := task.(state := RawState.Blocked)];
      }
    }

    method Unblock(id: nat) returns (ok: bool)
      requires Valid() && id in tasks
      modifies this
      ensures Snapshot() == MarkUnblocked(old(Snapshot()), id)
      ensures ok <==> Resolve(old(Snapshot()), id) == Status.Blocked
      ensures Valid()
    {
      var task := tasks[id];
      var state := Resolve(Snapshot(), id);
      ok := state == Status.Blocked;
      if ok {
        tasks := tasks[id := task.(state := RawState.Todo)];
      }
    }
  }
}
