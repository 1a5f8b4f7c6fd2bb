/** The tree renderer (`printDepTree`, `whitespace`) and the two listings
    built on it. Output is a sequence of line records rather than coloured
    text: the colour and the glyph are functions of the status. */
module Render {
  import opened TaskGraph
  import opened Resolver
  import opened ParentIndex

  /** One `console.log` of `print`: `whitespace(indent) + id +
      whitespace(padding) + sigil + ' ' + text`. */
  datatype Line = Line(lead: string, id: nat, pad: string, status: Status, description: string)

  /** `getStateSymbol(state)` without its colour: the glyph printed after
      the id column. The match covers all four statuses, so the `oops(2)`
      fallthrough has no counterpart. */
  function Sigil(s: Status): char
  {
    match s
    case Ready => '\U{00BB}'
    case SemiReady => '\U{00B0}'
    case Done => '\U{2713}'
    case Blocked => '\U{2716}'
  }

  /** Each status has its own glyph, so the glyph alone tells the status
      apart. */
  lemma SigilsDistinct(a: Status, b: Status)
    ensures Sigil(a) == Sigil(b) <==> a == b
  {
  }

  function Spaces(n: nat): string
  {
    seq(n, _ => ' ')
  }

  /** `whitespace(num)`: a string of `num` spaces, empty when `num` is not
      positive. */
  method Whitespace(num: int) returns (res: string)
    ensures |res| == (if num > 0 then num else 0)
    ensures forall i :: 0 <= i < |res| ==> res[i] == ' '
  {
    res := "";
    var i := 0;
    while i < num
      invariant num > 0 ==> 0 <= i <= num
      invariant num <= 0 ==> i == 0
      invariant |res| == i
      invariant forall k :: 0 <= k < |res| ==> res[k] == ' '
    {
      res := res + " ";
      i := i + 1;
    }
  }

  /** `String(id).length` for a non-negative integer id. */
  function DecimalLength(n: nat): nat
  {
    if n < 10 then 1 else 1 + DecimalLength(n / 10)
  }

  function Pow10(k: nat): nat
  {
    if k == 0 then 1 else 10 * Pow10(k - 1)
  }

  /** An id is written with at most `k` digits exactly when it is below
      10^k. */
  lemma {:induction false} DecimalLengthBound(n: nat, k: nat)
    requires k >= 1
    ensures DecimalLength(n) <= k <==> n < Pow10(k)
  {
    if k == 1 {
    } else if n >= 10 {
      DecimalLengthBound(n / 10, k - 1);
    } else {
      assert Pow10(k) == 10 * Pow10(k - 1);
      PowTenAtLeastTen(k);
    }
  }

  lemma {:induction false} PowTenAtLeastTen(k: nat)
    requires k >= 1
    ensures Pow10(k) >= 10
  {
    if k > 1 {
      PowTenAtLeastTen(k - 1);
    }
  }

  /** `4 - String(id).length`, the argument `print` hands to `whitespace`
      for the id column, clipped as `whitespace` clips it. */
  function PadWidth(id: nat): nat
  {
    if DecimalLength(id) < 4 then 4 - DecimalLength(id) else 0
  }

  /** The id and its padding fill exactly four columns, so the glyphs line
      up, exactly for the ids below 10000; from 1000 on there is no padding. */
  lemma IdColumn(id: nat)
    ensures DecimalLength(id) + PadWidth(id) == 4 <==> id < 10000
    ensures PadWidth(id) == 0 <==> id >= 1000
  {
    DecimalLengthBound(id, 4);
    DecimalLengthBound(id, 3);
  }

  lemma AllSpaces(s: string, n: nat)
    requires |s| == n && forall i :: 0 <= i < |s| ==> s[i] == ' '
    ensures s == Spaces(n)
  {
  }

  /** The nodes `print` returns from at once, emitting nothing. */
  predicate Pruned(g: Graph, id: nat, hideBlocked: bool)
    requires WellFormed(g) && id in g.tasks
  {
    Resolve(g, id) == Status.Done || (hideBlocked && Resolve(g, id) == Status.Blocked)
  }

  /** What `print(id)` emits at depth `depth`: nothing for a pruned node,
      otherwise its own line at indent `2 * depth` followed by the output
      for each dependency, in list order, one level deeper. */
  function Tree(g: Graph, id: nat, depth: nat, hideBlocked: bool): seq<Line>
    requires WellFormed(g) && id in g.tasks
    decreases g.idx - id, 1
  {
    if Pruned(g, id, hideBlocked) then []
    else
      var t := g.tasks[id];
      [Line(Spaces(2 * depth), id, Spaces(PadWidth(id)), Resolve(g, id), t.description)]
      + Forest(g, id, |t.deps|, depth + 1, hideBlocked)
  }

  /** The output for the first `k` dependencies of `owner`, in order. */
  function Forest(g: Graph, owner: nat, k: nat, depth: nat, hideBlocked: bool): seq<Line>
    requires WellFormed(g) && owner in g.tasks && k <= |g.tasks[owner].deps|
    decreases g.idx - owner, 0, k
  {
    if k == 0 then []
    else
      var d := g.tasks[owner].deps[k - 1];
      assert d in g.tasks[owner].deps;
      Forest(g, owner, k - 1, depth, hideBlocked) + Tree(g, d, depth, hideBlocked)
  }

  /** What every emitted line satisfies: it belongs to a task below the
      root, carries that task's status and description, is neither done nor
      (when hiding) blocked, and is indented by an even number of spaces, at
      least `2 * depth`. */
  ghost predicate LineOk(g: Graph, root: nat, depth: nat, hideBlocked: bool, l: Line)
    requires WellFormed(g) && root in g.tasks
  {
    && l.id in g.tasks
    && Reaches(g, root, l.id)
    && l.status == Resolve(g, l.id)
    && l.status != Status.Done
    && (hideBlocked ==> l.status != Status.Blocked)
    && l.description == g.tasks[l.id].description
    && l.pad == Spaces(PadWidth(l.id))
    && |l.lead| % 2 == 0 && |l.lead| >= 2 * depth
    && l.lead == Spaces(|l.lead|)
  }

  /** A subtree is empty exactly when its root is pruned; otherwise it
      starts with the root's line at indent `2 * depth`, and every line in
      it is well-formed. */
  lemma {:induction false} TreeLines(g: Graph, id: nat, depth: nat, hideBlocked: bool)
    requires WellFormed(g) && id in g.tasks
    ensures Tree(g, id, depth, hideBlocked) == [] <==> Pruned(g, id, hideBlocked)
    ensures !Pruned(g, id, hideBlocked) ==>
      Tree(g, id, depth, hideBlocked)[0].id == id && Tree(g, id, depth, hideBlocked)[0].lead == Spaces(2 * depth)
    ensures forall l :: l in Tree(g, id, depth, hideBlocked) ==> LineOk(g, id, depth, hideBlocked, l)
    decreases g.idx - id, 1
  {
    if !Pruned(g, id, hideBlocked) {
      var t := g.tasks[id];
      ForestLines(g, id, |t.deps|, depth, hideBlocked);
      assert Reaches(g, id, id);
    }
  }

  lemma {:induction false} ForestLines(g: Graph, owner: nat, k: nat, depth: nat, hideBlocked: bool)
    requires WellFormed(g) && owner in g.tasks && k <= |g.tasks[owner].deps|
    ensures forall l :: l in Forest(g, owner, k, depth + 1, hideBlocked) ==>
      LineOk(g, owner, depth, hideBlocked, l)
    decreases g.idx - owner, 0, k
  {
    if k > 0 {
      var d := g.tasks[owner].deps[k - 1];
      assert d in g.tasks[owner].deps;
      ForestLines(g, owner, k - 1, depth, hideBlocked);
      TreeLines(g, d, depth + 1, hideBlocked);
      forall l | l in Tree(g, d, depth + 1, hideBlocked)
        ensures LineOk(g, owner, depth, hideBlocked, l)
      {
        assert Reaches(g, d, l.id);
      }
    }
  }

  /** The "ready" view shows a subset of the full view: every line emitted
      with blocked tasks hidden is also emitted without hiding them. */
  lemma {:induction false} HiddenTreeWithinFull(g: Graph, id: nat, depth: nat)
    requires WellFormed(g) && id in g.tasks
    ensures forall l :: l in Tree(g, id, depth, true) ==> l in Tree(g, id, depth, false)
    decreases g.idx - id, 1
  {
    if !Pruned(g, id, true) {
      HiddenForestWithinFull(g, id, |g.tasks[id].deps|, depth + 1);
    }
  }

  lemma {:induction false} HiddenForestWithinFull(g: Graph, owner: nat, k: nat, depth: nat)
    requires WellFormed(g) && owner in g.tasks && k <= |g.tasks[owner].deps|
    ensures forall l :: l in Forest(g, owner, k, depth, true) ==> l in Forest(g, owner, k, depth, false)
    decreases g.idx - owner, 0, k
  {
    if k > 0 {
      var d := g.tasks[owner].deps[k - 1];
      assert d in g.tasks[owner].deps;
      HiddenForestWithinFull(g, owner, k - 1, depth);
      HiddenTreeWithinFull(g, d, depth);
    }
  }

  /** The closure state of one `printDepTree` call: the graph and options it
      was given, the `indent` shared by every nested `print`, and the lines
      emitted so far. */
  class Printer {
    const g: Graph
    const hideBlocked: bool
    var indent: int
    var out: seq<Line>

    constructor (g: Graph, hideBlocked: bool)
      ensures this.g == g && this.hideBlocked == hideBlocked
      ensures indent == 0 && out == []
    {
      this.g := g;
      this.hideBlocked := hideBlocked;
      indent := 0;
      out := [];
    }

    /** `print(id)`; `depth` is the nesting level the shared `indent`
        stands for on entry. */
    method Print(id: nat, ghost depth: nat)
      requires WellFormed(g) && id in g.tasks && indent == 2 * depth
      modifies this
      ensures out == old(out) + Tree(g, id, depth, hideBlocked)
      decreases g.idx - id
    {
      var task := g.tasks[id];
      var state := Resolve(g, id);
      if state == Status.Done {
        return;
      }
      if hideBlocked && state == Status.Blocked {
        return;
      }
      var lead := Whitespace(indent);
      var padding := Whitespace(4 - DecimalLength(id));
      AllSpaces(lead, 2 * depth);
      AllSpaces(padding, PadWidth(id));
      var line := Line(lead, id, padding, state, task.description);
      out := out + [line];
      var origIndent := indent + 2;
      var i := 0;
      while i < |task.deps|
        invariant 0 <= i <= |task.deps|
        invariant out == old(out) + [line] + Forest(g, id, i, depth + 1, hideBlocked)
      {
        indent := origIndent;
        assert task.deps[i] in task.deps;
        Print(task.deps[i], depth + 1);
        i := i + 1;
      }
    }
  }

  /** `printDepTree(db, id, opts)`: the lines for the subtree rooted at
      `id`, starting at indent 0. */
  method PrintDepTree(g: Graph, id: nat, hideBlocked: bool) returns (lines: seq<Line>)
    requires WellFormed(g) && id in g.tasks
    ensures lines == Tree(g, id, 0, hideBlocked)
    ensures lines == [] <==> Pruned(g, id, hideBlocked)
    ensures forall l :: l in lines ==> LineOk(g, id, 0, hideBlocked, l)
  {
    var printer := new Printer(g, hideBlocked);
    printer.Print(id, 0);
    lines := printer.out;
    TreeLines(g, id, 0, hideBlocked);
  }

  /** The subtrees of the first `k` of `roots`, one after the other. */
  function Listing(g: Graph, roots: seq<nat>, k: nat, hideBlocked: bool): seq<Line>
    requires WellFormed(g) && k <= |roots|
    requires forall i :: 0 <= i < |roots| ==> roots[i] in g.tasks
  {
    if k == 0 then []
    else Listing(g, roots, k - 1, hideBlocked) + Tree(g, roots[k - 1], 0, hideBlocked)
  }

  /** The `forEach` over the top-level ids: print each one's subtree in
      turn. */
  method PrintTrees(g: Graph, roots: seq<nat>, hideBlocked: bool) returns (lines: seq<Line>)
    requires WellFormed(g)
    requires forall i :: 0 <= i < |roots| ==> roots[i] in g.tasks
    ensures lines == Listing(g, roots, |roots|, hideBlocked)
  {
    lines := [];
    var i := 0;
    while i < |roots|
      invariant 0 <= i <= |roots|
      invariant lines == Listing(g, roots, i, hideBlocked)
    {
      var tree := PrintDepTree(g, roots[i], hideBlocked);
      lines := lines + tree;
      i := i + 1;
    }
  }

  /** The default listing (`hideBlocked` false) and the "ready" view
      (`hideBlocked` true): build the parent index, then print the subtree
      of every top-level task in key order. */
  method ShowTopLevel(g: Graph, hideBlocked: bool) returns (lines: seq<Line>)
    requires WellFormed(g)
    ensures lines == Listing(g, TopLevelIds(g), |TopLevelIds(g)|, hideBlocked)
  {
    var parents := ComputeParents(g);
    var roots := TopLevel(g, parents);
    lines := PrintTrees(g, roots, hideBlocked);
  }
}
