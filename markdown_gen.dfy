/**
 * The Markdown summary of `app/markdown_gen.py`: a bullet tree of workflows
 * in which each workflow lists its key activities and, indented below it, the
 * workflows it invokes, expanded depth-first and at most once per root.
 */
module MarkdownGen {
  import opened Wrappers
  import opened Text
  import opened Sequences
  import opened Ordering
  import Paths
  import opened Parser

  /** The first line of every document. */
  const Title := "# UiPath Project Summary"

  /** Optional per-workflow summaries, keyed by relative path; `None` when there are none. */
  type Descriptions = Option<map<string, string>>

  /** `"  " * level`. */
  function Indent(level: nat): (r: string)
    ensures |r| == 2 * level
    ensures forall i :: 0 <= i < |r| ==> r[i] == ' '
  {
    if level == 0 then "" else "  " + Indent(level - 1)
  }

  /** The bullet line naming a workflow by the last component of its path. */
  function Bullet(path: string, level: nat): string
  {
    Indent(level) + ("- **" + Paths.Name(path) + "**")
  }

  /** `llm_descriptions and workflow_path in llm_descriptions`: an empty dictionary counts as none. */
  predicate HasSummary(d: Descriptions, path: string)
  {
    d.Some? && d.value != map[] && path in d.value
  }

  /** What follows the indentation on a summary line. */
  const SummaryMarker := "  > "

  /** What follows the indentation on a key-activities line, before the names. */
  const KeyActivitiesMarker := "  - Key activities: "

  /** The line, after the indentation, that introduces the invoked workflows. */
  const InvokesLine := "  - Invokes:"

  /** The lines `generate_markdown` writes for `path` itself, before any invoked workflow. */
  function Header(w: map<string, WorkflowData>, path: string, level: nat, d: Descriptions): (r: seq<string>)
  {
    [Bullet(path, level)]
    + (if HasSummary(d, path) then [Indent(level) + ("  > " + d.value[path])] else [])
    + (if path in w && w[path].keyActivities != [] then [Indent(level) + ("  - Key activities: " + Join(", ", w[path].keyActivities))] else [])
    + (if path in w && w[path].invokedWorkflows != [] then [Indent(level) + "  - Invokes:"] else [])
  }

  /** The line starts with the indentation of `level` and has text after it. */
  predicate IndentedBy(line: string, level: nat)
  {
    |line| > 2 * level && line[..2 * level] == Indent(level)
  }

  /** Right after the indentation of `level`, the line carries `marker`. */
  predicate Tagged(line: string, level: nat, marker: string)
  {
    2 * level + |marker| <= |line| && line[2 * level..2 * level + |marker|] == marker
  }

  /** Does the workflow's record list key activities? */
  predicate HasKeyActivities(w: map<string, WorkflowData>, path: string)
  {
    path in w && w[path].keyActivities != []
  }

  /**
   * Every line of a header block is indented by `level` steps; the block
   * opens with the bullet and has one more line for each of the summary,
   * the key activities and the invoked workflows that the workflow has. A
   * workflow that was never parsed (a dangling target) gets no key-activities
   * or "Invokes:" line.
   */
  lemma HeaderLines(w: map<string, WorkflowData>, path: string, level: nat, d: Descriptions)
    ensures var r := Header(w, path, level, d);
      1 <= |r| <= 4 && r[0] == Bullet(path, level)
      && (forall i :: 0 <= i < |r| ==> IndentedBy(r[i], level))
      && |r| == 1 + (if HasSummary(d, path) then 1 else 0) + (if HasKeyActivities(w, path) then 1 else 0)
                  + (if Calls(w, path) != [] then 1 else 0)
      && (path !in w ==> |r| == if HasSummary(d, path) then 2 else 1)
  {
  }

  /** A line whose character `j` after the indentation differs from `marker[j]` does not carry `marker`. */
  lemma Untagged(line: string, level: nat, marker: string, j: nat)
    requires j < |marker| && 2 * level + j < |line| && line[2 * level + j] != marker[j]
    ensures !Tagged(line, level, marker)
  {
    if 2 * level + |marker| <= |line| {
      assert line[2 * level..2 * level + |marker|][j] == line[2 * level + j];
    }
  }

  /** An indented line made of `marker` and more text carries `marker`. */
  lemma MarkedLine(level: nat, marker: string, rest: string)
    ensures Tagged(Indent(level) + (marker + rest), level, marker)
  {
    var line := Indent(level) + (marker + rest);
    assert line[2 * level..2 * level + |marker|] == marker;
  }

  /**
   * A header block has a summary line (`  > ` after the indentation) exactly
   * when the descriptions are non-empty and hold the workflow's path; that
   * line comes right after the bullet and carries the description verbatim.
   */
  lemma HeaderSummaryLine(w: map<string, WorkflowData>, path: string, level: nat, d: Descriptions)
    ensures var r := Header(w, path, level, d);
      (exists i :: 0 <= i < |r| && Tagged(r[i], level, SummaryMarker)) <==> HasSummary(d, path)
    ensures HasSummary(d, path) ==> Header(w, path, level, d)[1] == Indent(level) + (SummaryMarker + d.value[path])
  {
    var r := Header(w, path, level, d);
    if HasSummary(d, path) {
      MarkedLine(level, SummaryMarker, d.value[path]);
      assert Tagged(r[1], level, SummaryMarker);
    } else {
      forall i | 0 <= i < |r|
        ensures !Tagged(r[i], level, SummaryMarker)
      {
        if i == 0 {
          Untagged(r[i], level, SummaryMarker, 0);
        } else {
          Untagged(r[i], level, SummaryMarker, 2);
        }
      }
    }
  }

  /**
   * A header block has a key-activities line exactly when the workflow's
   * record lists key activities; that line follows the bullet and the summary
   * line, if any, and joins the names with ", ".
   */
  lemma HeaderKeyActivitiesLine(w: map<string, WorkflowData>, path: string, level: nat, d: Descriptions)
    ensures var r := Header(w, path, level, d);
      (exists i :: 0 <= i < |r| && Tagged(r[i], level, KeyActivitiesMarker)) <==> HasKeyActivities(w, path)
    ensures HasKeyActivities(w, path) ==>
      var s := if HasSummary(d, path) then 1 else 0;
      Header(w, path, level, d)[1 + s] == Indent(level) + (KeyActivitiesMarker + Join(", ", w[path].keyActivities))
  {
    var r := Header(w, path, level, d);
    var s := if HasSummary(d, path) then 1 else 0;
    if HasKeyActivities(w, path) {
      MarkedLine(level, KeyActivitiesMarker, Join(", ", w[path].keyActivities));
      assert Tagged(r[1 + s], level, KeyActivitiesMarker);
    } else {
      forall i | 0 <= i < |r|
        ensures !Tagged(r[i], level, KeyActivitiesMarker)
      {
        if i == 0 {
          Untagged(r[i], level, KeyActivitiesMarker, 0);
        } else if i == s {
          Untagged(r[i], level, KeyActivitiesMarker, 2);
        } else {
          Untagged(r[i], level, KeyActivitiesMarker, 4);
        }
      }
    }
  }

  /**
   * A header block ends with the "Invokes:" line exactly when the workflow
   * invokes something, and no other line of the block is that line.
   */
  lemma HeaderInvokesLine(w: map<string, WorkflowData>, path: string, level: nat, d: Descriptions)
    ensures var r := Header(w, path, level, d);
      (exists i :: 0 <= i < |r| && Tagged(r[i], level, InvokesLine)) <==> Calls(w, path) != []
    ensures var r := Header(w, path, level, d);
      r[|r| - 1] == Indent(level) + InvokesLine <==> Calls(w, path) != []
  {
    var r := Header(w, path, level, d);
    var s := if HasSummary(d, path) then 1 else 0;
    MarkedLine(level, InvokesLine, "");
    assert Indent(level) + (InvokesLine + "") == Indent(level) + InvokesLine;
    if Calls(w, path) != [] {
      assert Tagged(r[|r| - 1], level, InvokesLine);
    } else {
      forall i | 0 <= i < |r|
        ensures !Tagged(r[i], level, InvokesLine)
      {
        if i == 0 {
          Untagged(r[i], level, InvokesLine, 0);
        } else if i == s {
          Untagged(r[i], level, InvokesLine, 2);
        } else {
          Untagged(r[i], level, InvokesLine, 4);
        }
      }
    }
  }

  /** A workflow expanded at some indentation level. */
  datatype Visit = Visit(path: string, level: nat)

  /** The outcome of a depth-first expansion: the visits made, in the order their bullets are written, and the paths marked by the end. */
  datatype Walk = Walk(visits: seq<Visit>, visited: set<string>)

  /** The workflows `path` invokes; none when it was not parsed. */
  function Calls(w: map<string, WorkflowData>, path: string): seq<string>
  {
    if path in w then w[path].invokedWorkflows else []
  }

  /**
   * The walk `generate_markdown(path, w, level, ...)` makes with a visited set
   * `V` that is already in use: a visited path is skipped; otherwise the path
   * is marked and visited and, when it is a parsed workflow, each workflow it
   * invokes is expanded in turn two levels deeper.
   */
  function Expand(w: map<string, WorkflowData>, path: string, level: nat, V: set<string>): (r: Walk)
    ensures V <= r.visited
    ensures path in V ==> r == Walk([], V)
    ensures path !in V ==> path in r.visited && r.visits != [] && r.visits[0] == Visit(path, level)
    decreases w.Keys - V, 0, 0
  {
    if path in V then Walk([], V)
    else if path in w then
      var children := ExpandAll(w, w[path].invokedWorkflows, level + 2, V + {path});
      Walk([Visit(path, level)] + children.visits, children.visited)
    else Walk([Visit(path, level)], V + {path})
  }

  /** The invoked workflows `children`, expanded one after the other, each seeing the paths the earlier ones marked. */
  function ExpandAll(w: map<string, WorkflowData>, children: seq<string>, level: nat, V: set<string>): (r: Walk)
    ensures V <= r.visited
    decreases w.Keys - V, 1, |children|
  {
    if children == [] then Walk([], V)
    else
      var first := Expand(w, children[0], level, V);
      var rest := ExpandAll(w, children[1..], level, first.visited);
      Walk(first.visits + rest.visits, rest.visited)
  }

  /** The lines written for `visits`: the header block of each, one after the other. */
  function Render(w: map<string, WorkflowData>, d: Descriptions, visits: seq<Visit>): seq<string>
  {
    if visits == [] then [] else Header(w, visits[0].path, visits[0].level, d) + Render(w, d, visits[1..])
  }

  lemma {:induction false} RenderAppend(w: map<string, WorkflowData>, d: Descriptions, a: seq<Visit>, b: seq<Visit>)
    ensures Render(w, d, a + b) == Render(w, d, a) + Render(w, d, b)
  {
    if a == [] {
      assert a + b == b;
    } else {
      assert (a + b)[1..] == a[1..] + b;
      RenderAppend(w, d, a[1..], b);
    }
  }

  /** The lines of a walk start with the header block of the walk's first visit. */
  lemma RenderFirst(w: map<string, WorkflowData>, d: Descriptions, v: Visit, visits: seq<Visit>)
    ensures Render(w, d, [v] + visits) == Header(w, v.path, v.level, d) + Render(w, d, visits)
  {
    assert ([v] + visits)[1..] == visits;
  }

  /** The paths of `visits`. */
  function VisitedPaths(visits: seq<Visit>): set<string>
  {
    set v | v in visits :: v.path
  }

  /** No visit repeats a path, and none is to a path of `V`. */
  predicate VisitsOnce(visits: seq<Visit>, V: set<string>)
  {
    (forall i :: 0 <= i < |visits| ==> visits[i].path !in V)
    && (forall i, j :: 0 <= i < j < |visits| ==> visits[i].path != visits[j].path)
  }

  lemma VisitedPathsAppend(a: seq<Visit>, b: seq<Visit>)
    ensures VisitedPaths(a + b) == VisitedPaths(a) + VisitedPaths(b)
  {
    assert forall v :: v in a + b <==> v in a || v in b;
  }

  /** Visits fresh for `V`, followed by visits fresh for everything seen by then, are fresh for `V`. */
  lemma VisitsOnceAppend(a: seq<Visit>, b: seq<Visit>, V: set<string>, later: set<string>)
    requires VisitsOnce(a, V) && VisitsOnce(b, later) && V + VisitedPaths(a) <= later
    ensures VisitsOnce(a + b, V)
  {
    var vs := a + b;
    forall i, j | 0 <= i < j < |vs|
      ensures vs[i].path != vs[j].path
    {
      if j >= |a| {
        assert vs[j] == b[j - |a|];
        if i < |a| {
          assert vs[i] in a;
        } else {
          assert vs[i] == b[i - |a|];
        }
      }
    }
    forall i | 0 <= i < |vs|
      ensures vs[i].path !in V
    {
      if i >= |a| {
        assert vs[i] == b[i - |a|];
      }
    }
  }

  /**
   * A walk never expands a workflow twice, nor one marked before it began,
   * and what it marks is exactly what it visits.
   */
  lemma {:induction false} ExpandVisitsOnce(w: map<string, WorkflowData>, path: string, level: nat, V: set<string>)
    ensures VisitsOnce(Expand(w, path, level, V).visits, V)
    ensures Expand(w, path, level, V).visited == V + VisitedPaths(Expand(w, path, level, V).visits)
    decreases w.Keys - V, 0, 0
  {
    if path !in V {
      var here := [Visit(path, level)];
      assert VisitedPaths(here) == {path} by {
        assert forall v :: v in here <==> v == Visit(path, level);
      }
      if path in w {
        var children := ExpandAll(w, w[path].invokedWorkflows, level + 2, V + {path});
        ExpandAllVisitsOnce(w, w[path].invokedWorkflows, level + 2, V + {path});
        VisitedPathsAppend(here, children.visits);
        VisitsOnceAppend(here, children.visits, V, V + {path});
      }
    }
  }

  lemma {:induction false} ExpandAllVisitsOnce(w: map<string, WorkflowData>, children: seq<string>, level: nat, V: set<string>)
    ensures VisitsOnce(ExpandAll(w, children, level, V).visits, V)
    ensures ExpandAll(w, children, level, V).visited == V + VisitedPaths(ExpandAll(w, children, level, V).visits)
    decreases w.Keys - V, 1, |children|
  {
    if children != [] {
      var first := Expand(w, children[0], level, V);
      var rest := ExpandAll(w, children[1..], level, first.visited);
      ExpandVisitsOnce(w, children[0], level, V);
      ExpandAllVisitsOnce(w, children[1..], level, first.visited);
      VisitedPathsAppend(first.visits, rest.visits);
      VisitsOnceAppend(first.visits, rest.visits, V, first.visited);
    }
  }

  /** Every parsed workflow of `S` outside `V` has all the workflows it invokes in `S`. */
  predicate ClosedUnderCalls(w: map<string, WorkflowData>, S: set<string>, V: set<string>)
  {
    forall q, c :: q in S && q !in V && q in w && c in w[q].invokedWorkflows ==> c in S
  }

  /** A walk marks every workflow invoked by a workflow it visited. */
  lemma {:induction false} ExpandClosed(w: map<string, WorkflowData>, path: string, level: nat, V: set<string>)
    ensures ClosedUnderCalls(w, Expand(w, path, level, V).visited, V)
    decreases w.Keys - V, 0, 0
  {
    if path !in V && path in w {
      ExpandAllClosed(w, w[path].invokedWorkflows, level + 2, V + {path});
    }
  }

  lemma {:induction false} ExpandAllClosed(w: map<string, WorkflowData>, children: seq<string>, level: nat, V: set<string>)
    ensures ClosedUnderCalls(w, ExpandAll(w, children, level, V).visited, V)
    ensures forall c :: c in children ==> c in ExpandAll(w, children, level, V).visited
    decreases w.Keys - V, 1, |children|
  {
    if children != [] {
      var first := Expand(w, children[0], level, V);
      ExpandClosed(w, children[0], level, V);
      ExpandAllClosed(w, children[1..], level, first.visited);
      assert forall c :: c in children ==> c == children[0] || c in children[1..];
    }
  }

  /** `chain[k + 1]` is invoked by the parsed workflow `chain[k]`, all along the chain. */
  predicate CallChain(w: map<string, WorkflowData>, chain: seq<string>)
  {
    |chain| >= 1
    && forall k :: 0 <= k < |chain| - 1 ==> chain[k] in w && chain[k + 1] in w[chain[k]].invokedWorkflows
  }

  /** `to` is `from` or is reached from it through invocations. */
  ghost predicate Reaches(w: map<string, WorkflowData>, from: string, to: string)
  {
    exists chain :: CallChain(w, chain) && chain[0] == from && chain[|chain| - 1] == to
  }

  lemma {:induction false} ChainStaysInClosed(w: map<string, WorkflowData>, S: set<string>, chain: seq<string>, n: nat)
    requires ClosedUnderCalls(w, S, {}) && CallChain(w, chain) && chain[0] in S && n < |chain|
    ensures chain[n] in S
  {
    if n > 0 {
      ChainStaysInClosed(w, S, chain, n - 1);
    }
  }

  /** A workflow reaches whatever the workflows it invokes reach. */
  lemma ReachesThroughCall(w: map<string, WorkflowData>, from: string, callee: string, to: string)
    requires from in w && callee in w[from].invokedWorkflows && Reaches(w, callee, to)
    ensures Reaches(w, from, to)
  {
    var chain :| CallChain(w, chain) && chain[0] == callee && chain[|chain| - 1] == to;
    var c := [from] + chain;
    forall k | 0 <= k < |c| - 1
      ensures c[k] in w && c[k + 1] in w[c[k]].invokedWorkflows
    {
      if k > 0 {
        assert c[k] == chain[k - 1] && c[k + 1] == chain[k];
      }
    }
    assert CallChain(w, c) && c[0] == from && c[|c| - 1] == to;
  }

  /** Everything a walk marks beyond `V` is reached from its start. */
  lemma {:induction false} ExpandOnlyReachable(w: map<string, WorkflowData>, path: string, level: nat, V: set<string>)
    ensures forall q :: q in Expand(w, path, level, V).visited && q !in V ==> Reaches(w, path, q)
    decreases w.Keys - V, 0, 0
  {
    if path !in V {
      assert CallChain(w, [path]);
      if path in w {
        var calls := w[path].invokedWorkflows;
        var children := ExpandAll(w, calls, level + 2, V + {path});
        ExpandAllOnlyReachable(w, calls, level + 2, V + {path});
        forall q | q in children.visited && q !in V + {path}
          ensures Reaches(w, path, q)
        {
          var i :| 0 <= i < |calls| && Reaches(w, calls[i], q);
          ReachesThroughCall(w, path, calls[i], q);
        }
      }
    }
  }

  lemma {:induction false} ExpandAllOnlyReachable(w: map<string, WorkflowData>, children: seq<string>, level: nat, V: set<string>)
    ensures forall q :: q in ExpandAll(w, children, level, V).visited && q !in V ==>
              exists i :: 0 <= i < |children| && Reaches(w, children[i], q)
    decreases w.Keys - V, 1, |children|
  {
    if children != [] {
      var first := Expand(w, children[0], level, V);
      var rest := ExpandAll(w, children[1..], level, first.visited);
      ExpandOnlyReachable(w, children[0], level, V);
      ExpandAllOnlyReachable(w, children[1..], level, first.visited);
      forall q | q in rest.visited && q !in V
        ensures exists i :: 0 <= i < |children| && Reaches(w, children[i], q)
      {
        if q !in first.visited {
          var i :| 0 <= i < |children[1..]| && Reaches(w, children[1..][i], q);
          assert children[i + 1] == children[1..][i];
        }
      }
    }
  }

  /**
   * Starting from an empty visited set, a walk marks exactly the workflows its
   * start reaches through invocations, dangling targets included.
   */
  lemma RootWalkMarksReachable(w: map<string, WorkflowData>, path: string, level: nat, q: string)
    ensures q in Expand(w, path, level, {}).visited <==> Reaches(w, path, q)
  {
    var r := Expand(w, path, level, {});
    ExpandOnlyReachable(w, path, level, {});
    if Reaches(w, path, q) {
      var chain :| CallChain(w, chain) && chain[0] == path && chain[|chain| - 1] == q;
      ExpandClosed(w, path, level, {});
      ChainStaysInClosed(w, r.visited, chain, |chain| - 1);
    }
  }

  /**
   * A root's section, walked from an empty visited set, has a bullet for
   * exactly the workflows the root reaches, so a workflow reached from two
   * roots appears in the section of each.
   */
  lemma RootSectionShowsReachable(w: map<string, WorkflowData>, root: string, q: string)
    ensures q in VisitedPaths(Expand(w, root, 1, {}).visits) <==> Reaches(w, root, q)
  {
    ExpandVisitsOnce(w, root, 1, {});
    RootWalkMarksReachable(w, root, 1, q);
  }

  /** No summaries and an empty dictionary of them render alike. */
  lemma {:induction false} NoDescriptionsLikeEmpty(w: map<string, WorkflowData>, visits: seq<Visit>)
    ensures Render(w, None, visits) == Render(w, Some(map[]), visits)
  {
    if visits != [] {
      NoDescriptionsLikeEmpty(w, visits[1..]);
    }
  }

  /** An unvisited path is visited first, then what it invokes is expanded with it marked. */
  lemma ExpandUnvisited(w: map<string, WorkflowData>, path: string, level: nat, V: set<string>)
    requires path !in V
    ensures Expand(w, path, level, V).visits == [Visit(path, level)] + ExpandAll(w, Calls(w, path), level + 2, V + {path}).visits
    ensures Expand(w, path, level, V).visited == ExpandAll(w, Calls(w, path), level + 2, V + {path}).visited
  {
  }

  /** Expanding the children from the `i`-th on: the `i`-th, then the rest from what it leaves marked. */
  lemma ExpandAllFrom(w: map<string, WorkflowData>, children: seq<string>, i: nat, level: nat, V: set<string>)
    requires i < |children|
    ensures ExpandAll(w, children[i..], level, V).visits
            == Expand(w, children[i], level, V).visits
               + ExpandAll(w, children[i + 1..], level, Expand(w, children[i], level, V).visited).visits
    ensures ExpandAll(w, children[i..], level, V).visited
            == ExpandAll(w, children[i + 1..], level, Expand(w, children[i], level, V).visited).visited
  {
    assert children[i..][0] == children[i] && children[i..][1..] == children[i + 1..];
  }

  /** The set of paths a rendering has already written, shared by the calls that receive it. */
  class PathSet {
    var items: set<string>

    constructor()
      ensures items == {}
    {
      items := {};
    }

    method Add(path: string)
      modifies this
      ensures items == old(items) + {path}
    {
      items := items + {path};
    }
  }

  /** The paths already written, as a call of `generate_markdown` receives them; no set means none. */
  function Received(visited: PathSet?): set<string>
    reads visited
  {
    if visited == null then {} else visited.items
  }

  /** The lines `generate_markdown` appends for the workflow itself: its bullet, summary, key activities and the "Invokes:" line. */
  method WriteHeader(path: string, w: map<string, WorkflowData>, level: nat, d: Descriptions) returns (lines: seq<string>)
    ensures lines == Header(w, path, level, d)
  {
    var prefix := Indent(level);
    lines := [prefix + ("- **" + Paths.Name(path) + "**")];
    if d.Some? && d.value != map[] && path in d.value {
      lines := lines + [prefix + ("  > " + d.value[path])];
    }
    if path in w && w[path].keyActivities != [] {
      lines := lines + [prefix + ("  - Key activities: " + Join(", ", w[path].keyActivities))];
    }
    if path in w && w[path].invokedWorkflows != [] {
      lines := lines + [prefix + "  - Invokes:"];
    }
  }

  /** `visited or set()`: the given set when it is non-empty, a new empty one otherwise. */
  method OrNewSet(visited: PathSet?) returns (seen: PathSet)
    ensures visited != null && visited.items != {} ==> seen == visited
    ensures visited == null || visited.items == {} ==> fresh(seen) && seen.items == {}
  {
    if visited != null && visited.items != {} {
      seen := visited;
    } else {
      seen := new PathSet();
    }
  }

  /**
   * `generate_markdown`. It works on `visited or set()`: a missing or EMPTY
   * set is replaced by a new one, so the caller's empty set stays empty and
   * only a non-empty set is shared with the caller, and with the recursive
   * calls, which always receive the non-empty set of this call.
   */
  method GenerateMarkdown(path: string, w: map<string, WorkflowData>, level: nat, d: Descriptions, visited: PathSet?)
    returns (lines: seq<string>)
    modifies visited
    ensures lines == Render(w, d, Expand(w, path, level, old(Received(visited))).visits)
    ensures visited != null && old(visited.items) != {} ==>
              visited.items == Expand(w, path, level, old(visited.items)).visited
    ensures visited != null && old(visited.items) == {} ==> visited.items == {}
    decreases w.Keys - Received(visited), 0
  {
    ghost var start := Received(visited);
    var seen := OrNewSet(visited);
    if path in seen.items {
      return [];
    }
    seen.Add(path);
    lines := WriteHeader(path, w, level, d);
    ExpandUnvisited(w, path, level, start);
    RenderFirst(w, d, Visit(path, level), ExpandAll(w, Calls(w, path), level + 2, start + {path}).visits);
    if path in w && w[path].invokedWorkflows != [] {
      var more := ExpandInvoked(w[path].invokedWorkflows, w, level + 2, d, seen);
      lines := lines + more;
    }
  }

  /** The loop of `generate_markdown` over the invoked workflows, each expanded with the shared, non-empty visited set. */
  method ExpandInvoked(calls: seq<string>, w: map<string, WorkflowData>, level: nat, d: Descriptions, seen: PathSet)
    returns (lines: seq<string>)
    requires seen.items != {}
    modifies seen
    ensures lines == Render(w, d, ExpandAll(w, calls, level, old(seen.items)).visits)
    ensures seen.items == ExpandAll(w, calls, level, old(seen.items)).visited
    decreases w.Keys - seen.items, 1
  {
    ghost var total := ExpandAll(w, calls, level, seen.items);
    lines := [];
    var i := 0;
    while i < |calls|
      invariant 0 <= i <= |calls|
      invariant old(seen.items) <= seen.items
      invariant lines + Render(w, d, ExpandAll(w, calls[i..], level, seen.items).visits) == Render(w, d, total.visits)
      invariant ExpandAll(w, calls[i..], level, seen.items).visited == total.visited
    {
      ghost var step := Expand(w, calls[i], level, seen.items);
      ghost var rest := ExpandAll(w, calls[i + 1..], level, step.visited);
      ExpandAllFrom(w, calls, i, level, seen.items);
      RenderAppend(w, d, step.visits, rest.visits);
      var more := GenerateMarkdown(calls[i], w, level, d, seen);
      ConcatAssociative(lines, more, Render(w, d, rest.visits));
      lines := lines + more;
      i := i + 1;
    }
    assert calls[i..] == [];
  }

  /** Some parsed workflow invokes `path`. */
  predicate IsInvoked(w: map<string, WorkflowData>, path: string)
  {
    exists k :: k in w && path in w[k].invokedWorkflows
  }

  /** The workflows nobody invokes or, when every workflow is invoked (a cycle), all of them. */
  function Roots(w: map<string, WorkflowData>): set<string>
  {
    var uninvoked := set k | k in w && !IsInvoked(w, k);
    if uninvoked != {} then uninvoked else w.Keys
  }

  /**
   * A root is a parsed workflow that nobody invokes, unless every workflow is
   * invoked, and then every workflow is a root; a project with workflows
   * always has a root.
   */
  lemma RootsAreUninvoked(w: map<string, WorkflowData>)
    ensures forall k :: k in Roots(w) <==> k in w && (!IsInvoked(w, k) || forall j :: j in w ==> IsInvoked(w, j))
    ensures Roots(w) == {} <==> w == map[]
  {
    var uninvoked := set k | k in w && !IsInvoked(w, k);
    if uninvoked != {} {
      var u :| u in uninvoked;
      assert u in w && !IsInvoked(w, u);
    } else {
      forall j | j in w
        ensures IsInvoked(w, j)
      {
        assert j !in uninvoked;
      }
    }
    if w != map[] {
      var k :| k in w;
      assert k in Roots(w) || k !in uninvoked;
    }
  }

  /** The lines of the sections of `roots`: each root walked from a fresh visited set at level 1, then a blank line. */
  function Sections(w: map<string, WorkflowData>, d: Descriptions, roots: seq<string>): seq<string>
  {
    if roots == [] then []
    else
      var last := roots[|roots| - 1];
      Sections(w, d, roots[..|roots| - 1]) + Render(w, d, Expand(w, last, 1, {}).visits) + [""]
  }

  /** The lines `build_markdown` joins: the title, then the sections of the roots in ascending order. */
  function DocumentLines(w: map<string, WorkflowData>, d: Descriptions): seq<string>
  {
    [Title] + Sections(w, d, SortedSet(Roots(w)))
  }

  /** The document `build_markdown` returns. */
  function Document(w: map<string, WorkflowData>, d: Descriptions): string
  {
    JoinedText(DocumentLines(w, d))
  }

  /** `build_markdown`. Every root is rendered through the same, still empty, visited set. */
  method BuildMarkdown(w: map<string, WorkflowData>, d: Descriptions) returns (doc: string)
    ensures doc == Document(w, d)
  {
    var roots := SortedSet(Roots(w));
    var lines := [Title];
    var visited := new PathSet();
    var i := 0;
    while i < |roots|
      invariant 0 <= i <= |roots|
      invariant visited.items == {}
      invariant lines == [Title] + Sections(w, d, roots[..i])
    {
      var more := GenerateMarkdown(roots[i], w, 1, d, visited);
      SectionsStep(w, d, roots, i, lines, more);
      lines := lines + more;
      lines := lines + [""];
      i := i + 1;
    }
    assert roots[..i] == roots;
    doc := JoinedText(lines);
  }

  /** Appending the section of the next root to the lines written so far. */
  lemma SectionsStep(w: map<string, WorkflowData>, d: Descriptions, roots: seq<string>, i: nat, lines: seq<string>, more: seq<string>)
    requires i < |roots|
    requires lines == [Title] + Sections(w, d, roots[..i])
    requires more == Render(w, d, Expand(w, roots[i], 1, {}).visits)
    ensures lines + more + [""] == [Title] + Sections(w, d, roots[..i + 1])
  {
    assert roots[..i + 1][..i] == roots[..i];
    ConcatAssociative([Title], Sections(w, d, roots[..i]), more);
    ConcatAssociative([Title], Sections(w, d, roots[..i]) + more, [""]);
  }

  /**
   * The document starts with the title as a line of its own and ends in
   * exactly one newline, after a visible character: blank lines and trailing
   * whitespace at its end are stripped.
   */
  lemma DocumentShape(w: map<string, WorkflowData>, d: Descriptions)
    ensures OpensWithLine(Document(w, d), Title) && EndsInOneNewline(Document(w, d))
  {
    assert !IsSpace(Title[0]) && !IsSpace(Title[|Title| - 1]);
    JoinedTextShape(Document(w, d), Title, DocumentLines(w, d));
  }

  /** A project without workflows renders as the title alone. */
  lemma EmptyProjectDocument(d: Descriptions)
    ensures Document(map[], d) == Title + "\n"
  {
    RootsAreUninvoked(map[]);
    assert SortedSet(Roots(map[])) == [];
    assert DocumentLines(map[], d) == [Title];
    StripAfterVisibleHead(Title, "");
    assert Title + "" == Title;
  }
}
