/** Worked command sequences, stated against the transition functions. */
module Scenarios {
  import opened TaskGraph
  import opened Resolver
  import opened Commands
  import opened Render

  /** `add buy flour`, then `add 0 bake bread`. The second task becomes a
      dependency OF task 0, so task 0 waits on task 1: task 1 is ready, task
      0 is semi-ready (its only dependency is actionable), and `done 0` is
      refused. */
  lemma FlourThenBread()
    ensures var g := AddTask(AddTask(Empty(), "buy flour", None), "bake bread", Some(0));
      && g.idx == 2 && g.tasks.Keys == {0, 1}
      && g.tasks[0].deps == [1] && g.tasks[1].deps == []
      && Resolve(g, 0) == Status.SemiReady
      && Resolve(g, 1) == Status.Ready
      && MarkDone(g, 0) == g
  {
    var g1 := AddTask(Empty(), "buy flour", None);
    var g := AddTask(g1, "bake bread", Some(0));
    assert 1 in g.tasks[0].deps;
  }

  /** `add bake bread`, then `add 0 buy flour`, so that baking waits on the
      flour. Before: 0 is semi-ready and 1 ready. After `done 1`: 1 is done,
      0 is ready, and printing the tree of 0 shows task 0 alone, since its
      done dependency is elided. */
  lemma BreadWaitsOnFlour()
    ensures var g := AddTask(AddTask(Empty(), "bake bread", None), "buy flour", Some(0));
      && Resolve(g, 0) == Status.SemiReady
      && Resolve(g, 1) == Status.Ready
      && var h := MarkDone(g, 1);
      && Resolve(h, 1) == Status.Done
      && Resolve(h, 0) == Status.Ready
      && Tree(h, 0, 0, false) == [Line("", 0, "   ", Status.Ready, "bake bread")]
  {
    var g1 := AddTask(Empty(), "bake bread", None);
    var g := AddTask(g1, "buy flour", Some(0));
    assert 1 in g.tasks[0].deps;
    var h := MarkDone(g, 1);
    MarkDoneOutcome(g, 1);
    assert h.tasks[0].deps == [1];
    assert Resolve(h, 0) == Status.Ready;
    assert Tree(h, 1, 1, false) == [];
    assert Forest(h, 0, 1, 1, false) == [];
    assert Spaces(0) == "";
    assert Spaces(PadWidth(0)) == "   ";
  }
}
