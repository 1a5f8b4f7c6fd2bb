# tdag task tracker: a Dafny model of `cmd.js`

`cmd.js` is a single-file command-line task tracker. Its document holds a
counter `idx` that hands out ids, and a map `tasks` from numeric ids to
tasks. Each task has a `description`, a list `deps` of the ids it waits
on, and a raw `state` (todo, blocked or done). The status a user sees
(ready, semi-ready, blocked or done) is never stored. `getTaskState`
derives it from the raw state and, recursively, from the statuses of the
dependencies.

The model has five modules:

- `TaskGraph` (graph.dfy) holds the document as a `Graph` value. `WellFormed`
  is the invariant that every database built by `add` from the empty
  document satisfies. Ids are below `idx`. Every dependency exists and
  has a larger id than the task that lists it. This rules out cycles and
  gives the resolver its termination measure, `idx - id`.
- `Resolver` (resolver.dfy) is `getTaskState` with its inner `done` and
  `readySomewhere`. It keeps the source's first-match precedence chain,
  and proves that the final `oops(1)` branch cannot be reached.
- `Commands` (commands.dfy) covers `add`, `done`, `block` and `unblock`.
  Each is a pure transition on `Graph`, with lemmas about its effect on
  resolved statuses. The class `Database` holds `idx` and `tasks` as
  fields, and its methods update them in place, proved equal to the
  transitions. A refused command returns `ok == false` and changes nothing.
- `ParentIndex` (parents.dfy) covers `computeParents`, `getParents` and
  `getTopLevel`. These are loops that build a map and a list, proved
  against specification functions. `Object.keys` visits integer-like keys
  in ascending order, so the loops walk the ids `0 .. idx-1` and skip the
  absent ones.
- `Render` (render.dfy) covers `whitespace` and `printDepTree`. `Printer` is
  the closure state of one `printDepTree` call: the shared mutable
  `indent` and the lines emitted so far. Each `console.log` becomes a
  `Line` record holding the lead spaces, the id, the padding, the status
  and the description. The default listing and the "ready" view print
  every top-level tree; `ShowTopLevel` covers both.
- `Scenarios` (scenarios.dfy) holds two worked command sequences.

Where the code and its usual description differ, the model follows the
code:

- `add <parent> <text>` appends the NEW id to the PARENT's `deps`
  (cmd.js:31). So the parent waits on the new task, not the other way
  round. A task can therefore only ever depend on tasks created after it.
- A todo task whose unfinished dependency is itself ready resolves to
  semi-ready (cmd.js:194), not blocked. So after `add buy flour` and
  `add 0 bake bread`, task 0 is semi-ready, task 1 is ready, and `done 0`
  is refused (`Scenarios.FlourThenBread`). The picture "bread waits on
  flour; finish flour and bread becomes ready; its tree then shows bread
  alone" comes from adding the tasks the other way round
  (`Scenarios.BreadWaitsOnFlour`).
- `unblock` checks only that the task RESOLVES to blocked (cmd.js:81). On
  a task blocked only by its dependencies it is accepted and writes todo
  over todo, which leaves the document as it was.

## Model

| member | source | states |
|---|---|---|
| `TaskGraph.Empty` | cmd.js:121-125 | The document `load` returns when no file exists is well-formed. |
| `Resolver.Resolve` | cmd.js:170-203 | Total on well-formed graphs, so the `oops(1)` fallthrough is unreachable. A raw-blocked task resolves blocked whatever its deps. It resolves done iff its raw state is done. It resolves ready iff it is raw todo and every dep is raw done, which includes the task with no deps. |
| `Resolver.PartialDepsResolve` | cmd.js:177-197 | A todo task with a non-done dep resolves semi-ready iff some dep resolves ready or semi-ready, and blocked otherwise. |
| `Resolver.ActionableReachesReady` | cmd.js:177-188 | A task that resolves ready or semi-ready has a ready task somewhere below it along dependency edges. |
| `Resolver.ResolveFrame` | cmd.js:170-203 | A task's status depends only on the tasks whose ids are at least its own. |
| `Commands.LinkedWellFormed` | cmd.js:22-34 | A new task with no deps, linked under an existing parent and numbered above every other, keeps the graph well-formed. |
| `Commands.AddTask` | cmd.js:21-34 | The new id is the old `idx`, and `idx` grows by one. The new task is todo with no deps. The new id is appended at the end of the parent's deps. No other task changes. Well-formedness is preserved. |
| `Commands.AddKeepsStatuses` | cmd.js:22-34 | The new task resolves ready. Every task allocated after the parent (every task, when there is no parent) keeps its status. |
| `Commands.AddDemotesReadyParent` | cmd.js:29-32 | Adding a child under a ready parent makes the parent semi-ready. |
| `Commands.MarkDone` | cmd.js:53-60 | `done` keeps the graph well-formed and changes at most the raw state of its own task. |
| `Commands.MarkBlocked` | cmd.js:66-73 | `block` keeps the graph well-formed and changes at most the raw state of its own task. |
| `Commands.MarkUnblocked` | cmd.js:79-86 | `unblock` keeps the graph well-formed and changes at most the raw state of its own task. |
| `Commands.MarkDoneOutcome` | cmd.js:54-60 | `done` changes the graph iff the task resolves ready. The task then resolves done. |
| `Commands.MarkDoneKeepsLaterStatuses` | cmd.js:55-56 | After `done`, every task with a larger id keeps its status. |
| `Commands.MarkDoneReadiesDependent` | cmd.js:55-56 | A todo task whose only non-done dep was the finished task becomes ready. |
| `Commands.BlockOutcome` | cmd.js:67-73 | A task that resolves done is left as it is. Any other task gets raw state blocked, and so resolves blocked. |
| `Commands.BlockIdempotent` | cmd.js:68-69 | Blocking twice equals blocking once. |
| `Commands.UnblockOutcome` | cmd.js:80-86 | A task that resolves blocked gets raw state todo. Any other task is left as it is. |
| `Commands.UnblockOnTodoIsNoop` | cmd.js:81-82 | On a raw-todo task `unblock` leaves the graph unchanged. This includes a task blocked only by its deps, where it is accepted and writes todo over todo. |
| `Commands.UnblockUndoesBlock` | cmd.js:63-87 | On a raw-todo task, `unblock` after `block` restores the graph. |
| `Commands.Database.constructor` | cmd.js:121-125 | A fresh database is the empty, well-formed document. |
| `Commands.Database.Add` | cmd.js:21-34 | The in-place update equals `AddTask`. It returns the old `idx` and keeps the invariant. |
| `Commands.Database.Done` | cmd.js:52-60 | It is accepted iff the task resolves ready. The in-place update equals `MarkDone`. |
| `Commands.Database.Block` | cmd.js:65-73 | It is accepted iff the task does not resolve done. The in-place update equals `MarkBlocked`. |
| `Commands.Database.Unblock` | cmd.js:78-86 | It is accepted iff the task resolves blocked. The in-place update equals `MarkUnblocked`. |
| `ParentIndex.ParentsCount` | cmd.js:139-142 | `p` occurs in the parent list of `d` exactly as often as `d` occurs in the deps of `p`. Tasks with no such edge do not occur at all. |
| `ParentIndex.ParentsMembership` | cmd.js:134-145 | A task is among the parents of `d` iff it lists `d`. |
| `ParentIndex.PushAllLookup` | cmd.js:139-142 | The inner loop appends the owner to each dep's entry once per occurrence, and leaves the other entries alone. |
| `ParentIndex.PushAllKeys` | cmd.js:140 | The inner loop creates an entry for every dep it visits, and no other. |
| `ParentIndex.PushEach` | cmd.js:139-142 | The loop over one task's deps yields the fold `PushAll`. |
| `ParentIndex.IndexBelowLookup` | cmd.js:136-143 | After the outer loop has visited the ids below `n`, each entry is the parent list built from those ids. |
| `ParentIndex.IndexBelowKeys` | cmd.js:136-141 | In a well-formed graph every visited task has an entry, and only tasks do. |
| `ParentIndex.IndexIsParentIndex` | cmd.js:134-145 | The finished index has one entry per task, holding its parent list. `p` occurs in the entry of `d` exactly as often as `d` occurs in the deps of `p`. |
| `ParentIndex.ComputeParents` | cmd.js:134-145 | Every task id gets an entry and no other id does. `p` appears in `parents[d]` exactly as often as `d` appears in the deps of `p`. |
| `ParentIndex.GetParents` | cmd.js:147-149 | The entry for `id` lists exactly the tasks that depend on `id`. |
| `ParentIndex.RootsBelow` | cmd.js:151-160 | Every root is a task with an id below the bound. |
| `ParentIndex.RootsBelowSpec` | cmd.js:153-157 | The roots below a bound are exactly the tasks below it whose index entry is empty. |
| `ParentIndex.RootsBelowSorted` | cmd.js:153-157 | The roots come out strictly increasing, in key order. |
| `ParentIndex.RootsAreUnreferenced` | cmd.js:151-160 | Read through a correct parent index, the roots are exactly the tasks that no task depends on. |
| `ParentIndex.TopLevelIdsSpec` | cmd.js:151-160 | The top-level ids of a loaded document are strictly increasing and are exactly the tasks no task depends on. |
| `ParentIndex.TopLevel` | cmd.js:151-160 | It returns exactly the tasks no task depends on, strictly increasing. |
| `Render.SigilsDistinct` | cmd.js:205-211 | The four statuses get four pairwise distinct glyphs, so the glyph alone identifies the status. |
| `Render.Whitespace` | cmd.js:162-168 | It returns `max(0, num)` characters, all spaces. |
| `Render.DecimalLengthBound` | cmd.js:244 | An id is written with at most `k` digits iff it is below 10^k. |
| `Render.IdColumn` | cmd.js:244-245 | Id plus padding fill exactly four columns iff the id is below 10000. From 1000 on the padding is empty. |
| `Render.TreeLines` | cmd.js:231-251 | A subtree is empty iff its root resolves done, or blocked while hiding blocked tasks. Otherwise it starts with the root's line at indent 2×depth. Every emitted line is a task below the root with its own status and description. No emitted line is done, or blocked when hiding. Every indent is even and at least 2×depth. |
| `Render.ForestLines` | cmd.js:246-250 | The same facts hold for the lines emitted for the dependencies, one level deeper. |
| `Render.HiddenTreeWithinFull` | cmd.js:238-240 | Every line the "ready" view emits for a subtree is also emitted by the full view. |
| `Render.HiddenForestWithinFull` | cmd.js:246-250 | The same holds for the lines emitted for a task's dependencies. |
| `Render.Printer.constructor` | cmd.js:225-228 | A print starts at indent 0 with no output. |
| `Render.Printer.Print` | cmd.js:231-251 | `print(id)` with the shared `indent` at 2×depth appends exactly the pre-order tree: pruned nodes emit nothing and are not descended into; otherwise one line, then each dep in list order one level deeper. |
| `Render.PrintDepTree` | cmd.js:225-252 | It returns the tree from indent 0. The result is empty iff the root is pruned. Every line satisfies the per-line facts above. |
| `Render.PrintTrees` | cmd.js:45-47 | The loop over the top-level ids emits their subtrees one after the other. |
| `Render.ShowTopLevel` | cmd.js:40-48 | The default listing (cmd.js:97-105) and the "ready" view build the index, then print the tree of every top-level task in key order. |
| `Scenarios.FlourThenBread` | cmd.js:21-34 | After `add buy flour` and `add 0 bake bread`: task 0 depends on 1, task 0 is semi-ready, task 1 is ready, and `done 0` is refused. |
| `Scenarios.BreadWaitsOnFlour` | cmd.js:50-60 | With bread waiting on flour: finishing flour makes flour done and bread ready. Printing bread's tree then emits bread alone. |

## Left out

- Argument parsing with `minimist`, the `Number`/`isNaN` handling of the parent argument, and dispatch on `args._` (cmd.js:5, 9-19, 50, 63, 76, 90, 97) are command-line glue.
- `load` and `save` (cmd.js:114-132) are file I/O and JSON (de)serialisation. Only the empty document `load` returns when no file exists is modelled. `save` writes `todo.json` whatever `-f` says (cmd.js:131); that is not modelled.
- Help output and process exit (cmd.js:107-112) are stream I/O and process control.
- The chalk colours of `getStateSymbol` and `getStateTextColorFn` (cmd.js:205-219) are foreign library calls. Only the glyph choice is kept (`Render.Sigil`), and `Line` records the status that selects the colour.
- `console.log` is not modelled. Printed lines are `Line` records, and the refusal messages of `done`, `block` and `unblock` are `ok == false`.
- An unknown id makes the source throw: in `getTaskState`, and in `add` at `parent.deps.push`. It is therefore a precondition (`id in tasks`, parent in `tasks`) rather than an error result.
- `minimist` is not part of this model. Ids reach the commands as numbers, because it parses numeric-looking arguments, and `Object.keys` yields them as canonical decimal strings. So `String(id).length` at cmd.js:244 is the decimal length the model computes.
- Ids and `idx` are JavaScript doubles in the source, and the model's `nat` has no bound. At 2^53 `db.idx++` (cmd.js:22) stops increasing, and `add` would then overwrite an existing task. From 2^32-1 on, `Object.keys` (cmd.js:136, 153) lists ids after the array-index keys, not in numeric order. Neither limit is reachable in practice, and neither is modelled.
- A hand-edited document with a cycle or a dangling dependency makes the source recurse forever or throw. The model covers only well-formed documents, which are the ones `add` produces.
- Task records are values in the `tasks` map. The source mutates the task object in place, but nothing else holds a reference to it, so no aliasing is lost.
- The exponential re-resolution of shared dependencies is a cost, not a behaviour, and is not modelled.
