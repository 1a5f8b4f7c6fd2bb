/** The tracker's document: a counter that hands out the next id, and a map
    from numeric ids to tasks. Each task stores only its raw state; the
    status a user sees is derived from the graph (module Resolver). */
module TaskGraph {

  /** The raw state persisted per task ('todo' | 'blocked' | 'done'). */
  datatype RawState = Todo | Blocked | Done

  /** One entry of `db.tasks`. `deps` is in display order. */
  datatype Task = Task(description: string, deps: seq<nat>, state: RawState)

  /** `db` as loaded: `idx` is the next id to allocate. */
  datatype Graph = Graph(idx: nat, tasks: map<nat, Task>)

  datatype Option<T> = None | Some(value: T)

  /** What every database built by `add` from the empty one satisfies: ids
      are below the counter, and every dependency exists and was allocated
      after the task that lists it (a new id is only ever appended to an
      older parent). The last clause rules out cycles and gives the
      resolver its termination measure `idx - id`. */
  predicate WellFormed(g: Graph)
  {
    && (forall id :: id in g.tasks ==> id < g.idx)
    && (forall id, d {:trigger d in g.tasks[id].deps} :: id in g.tasks && d in g.tasks[id].deps ==> id < d && d in g.tasks)
  }

  /** The document `load` returns when no file exists yet. */
  function Empty(): (g: Graph)
    ensures WellFormed(g)
  {
    Graph(0, map[])
  }
}
